/** The static price table and the per-exchange cost it yields. Prices are
    exact decimals (dollars per million tokens), so `real` models them exactly. */
module Pricing {
  import opened Wrappers
  import opened Text

  /** Dollars per million input and output tokens. */
  datatype Price = Price(input: real, output: real)

  /** The six known models, keyed by lower-case name. */
  const Table: map<string, Price> := map[
    "claude-3-haiku-20240307" := Price(0.25, 1.25),
    "claude-3-sonnet-20240229" := Price(3.0, 15.0),
    "claude-3-opus-20240229" := Price(15.0, 75.0),
    "gpt-3.5-turbo" := Price(0.5, 1.5),
    "gpt-4" := Price(30.0, 60.0),
    "gpt-4-turbo-preview" := Price(10.0, 30.0)
  ]

  /** The cost of `tokens` tokens at `perMillion` dollars per million. */
  function Scaled(perMillion: real, tokens: int): real {
    perMillion * tokens as real / 1000000.0
  }

  /** The cost of one exchange on `model`: absent for a model the table does not
      know (after lower-casing), the linear price formula otherwise. */
  function GetTokenCost(model: string, inputTokens: int, outputTokens: int): (r: Option<real>)
    ensures r.None? <==> Lower(model) !in Table
  {
    var key := Lower(model);
    if key !in Table then None
    else Some(Scaled(Table[key].input, inputTokens) + Scaled(Table[key].output, outputTokens))
  }

  /** For a known model the cost is input price times input tokens plus output
      price times output tokens, each over one million. */
  lemma CostFormula(model: string, inputTokens: int, outputTokens: int)
    requires Lower(model) in Table
    ensures GetTokenCost(model, inputTokens, outputTokens)
         == Some((Table[Lower(model)].input * inputTokens as real
                + Table[Lower(model)].output * outputTokens as real) / 1000000.0)
  {
    var a := Table[Lower(model)].input * inputTokens as real;
    var b := Table[Lower(model)].output * outputTokens as real;
    assert a / 1000000.0 + b / 1000000.0 == (a + b) / 1000000.0;
  }

  /** Every table key is its own lower-case form, so each entry is reachable. */
  lemma {:induction false} TableKeysLowerCase()
    ensures forall k :: k in Table ==> Lower(k) == k
  {
    forall k | k in Table
      ensures Lower(k) == k
    {
      LowerOfLowerCase(k);
    }
  }

  /** A string with no ASCII upper-case letter is unchanged by lower-casing. */
  lemma LowerOfLowerCase(s: string)
    requires forall i :: 0 <= i < |s| ==> !('A' <= s[i] <= 'Z')
    ensures Lower(s) == s
  {
  }

  /** Every model name the table lists has a price. */
  lemma TableEntriesHavePrices(model: string, inputTokens: int, outputTokens: int)
    requires model in Table
    ensures GetTokenCost(model, inputTokens, outputTokens).Some?
  {
    TableKeysLowerCase();
  }

  /** Names that agree after lower-casing cost the same. */
  lemma CaseInsensitive(a: string, b: string, inputTokens: int, outputTokens: int)
    requires Lower(a) == Lower(b)
    ensures GetTokenCost(a, inputTokens, outputTokens) == GetTokenCost(b, inputTokens, outputTokens)
  {
  }

  /** Non-negative token counts never cost a negative amount. */
  lemma CostNonNegative(model: string, inputTokens: int, outputTokens: int)
    requires inputTokens >= 0 && outputTokens >= 0
    requires Lower(model) in Table
    ensures GetTokenCost(model, inputTokens, outputTokens).value >= 0.0
  {
    var p := Table[Lower(model)];
    assert p.input >= 0.0 && p.output >= 0.0;
  }

  /** No tokens cost exactly nothing on a known model. */
  lemma ZeroTokensCostNothing(model: string)
    requires Lower(model) in Table
    ensures GetTokenCost(model, 0, 0) == Some(0.0)
  {
  }

  /** Cost is additive: pricing two exchanges separately and summing equals
      pricing their combined token counts. */
  lemma CostAdditive(model: string, in1: int, out1: int, in2: int, out2: int)
    requires Lower(model) in Table
    ensures GetTokenCost(model, in1 + in2, out1 + out2).value
         == GetTokenCost(model, in1, out1).value + GetTokenCost(model, in2, out2).value
  {
    var p := Table[Lower(model)];
    assert Scaled(p.input, in1 + in2) == Scaled(p.input, in1) + Scaled(p.input, in2);
    assert Scaled(p.output, out1 + out2) == Scaled(p.output, out1) + Scaled(p.output, out2);
  }

  /** One million input tokens on "gpt-4", written in any case, cost exactly 30 dollars. */
  lemma Gpt4Example()
    ensures GetTokenCost("gpt-4", 1000000, 0) == Some(30.0)
    ensures GetTokenCost("GPT-4", 1000000, 0) == Some(30.0)
  {
    LowerOfLowerCase("gpt-4");
    assert Lower("GPT-4") == "gpt-4";
  }

  /** An unlisted model has no cost, not a zero cost. */
  lemma UnknownModelExample()
    ensures GetTokenCost("unknown-model", 100, 100) == None
  {
    var name := "unknown-model";
    NotInTable(name);
    LowerOfLowerCase(name);
    assert Lower(name) !in Table;
  }

  /** Every table key names a Claude or a GPT model. */
  lemma TableKeysStartWith()
    ensures forall k :: k in Table ==> |k| > 0 && (k[0] == 'c' || k[0] == 'g')
  {
    assert Table.Keys == {"claude-3-haiku-20240307", "claude-3-sonnet-20240229", "claude-3-opus-20240229",
                          "gpt-3.5-turbo", "gpt-4", "gpt-4-turbo-preview"};
  }

  /** A name whose first letter is neither 'c' nor 'g' is not in the table. */
  lemma NotInTable(name: string)
    requires |name| > 0 && name[0] != 'c' && name[0] != 'g'
    ensures name !in Table
  {
    TableKeysStartWith();
  }

  /** The table holds exactly six entries. */
  lemma TableSize()
    ensures |Table| == 6
  {
  }
}
