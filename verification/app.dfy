/** The chat application: choosing a provider and a model, then the session
    loop that reads messages, sends them, prices each exchange and keeps running
    totals. The loop is a fold over the steps the user and the endpoint take. */
module App {
  import opened Wrappers
  import opened Messages
  import opened Text
  import opened BaseClient
  import opened Pricing
  import AnthropicClient

  /** The endpoint the application passes to the OpenAI client; the Anthropic
      client is given the same URL as its own default. */
  const OpenAIUrl := "https://api.openai.com/v1/chat/completions"

  /** The configuration read from the environment at start-up. Each model list
      is a comma split of a variable, so it always has at least one entry. */
  datatype Config = Config(
    anthropicKey: string,
    openaiKey: string,
    anthropicModels: seq<string>,
    openaiModels: seq<string>)

  /** The chatbot menu: "1" is Anthropic, "2" is OpenAI, anything else is invalid. */
  function ChooseChatbot(choice: string): (r: Option<Provider>)
    ensures r == Some(Anthropic) <==> choice == "1"
    ensures r == Some(OpenAI) <==> choice == "2"
    ensures r.None? <==> choice != "1" && choice != "2"
  {
    if choice == "1" then Some(Anthropic)
    else if choice == "2" then Some(OpenAI)
    else None
  }

  /** The model list a client module reads for its default model. Both client
      modules read the Anthropic variable, whichever provider they serve. */
  function ModuleModels(cfg: Config): seq<string> {
    cfg.anthropicModels
  }

  /** The model list the menu offers for a provider. */
  function MenuModels(provider: Provider, cfg: Config): seq<string> {
    match provider
    case Anthropic => cfg.anthropicModels
    case OpenAI => cfg.openaiModels
  }

  /** The model picked from a 1-based menu index (`None` when the input did not
      parse as an integer); anything out of range falls back to the first model. */
  function SelectModel(models: seq<string>, index: Option<int>): (m: string)
    requires |models| > 0
    ensures m in models
    ensures index.Some? && 1 <= index.value <= |models| ==> m == models[index.value - 1]
    ensures !(index.Some? && 1 <= index.value <= |models|) ==> m == models[0]
  {
    match index
    case Some(i) => if 1 <= i <= |models| then models[i - 1] else models[0]
    case None => models[0]
  }

  /** The client the application starts with: the chosen provider's client, bound
      to that provider's key and URL, with the model picked from its menu. */
  function StartClient(cfg: Config, choice: string, index: Option<int>): (r: Option<Client>)
    requires |cfg.anthropicModels| > 0 && |cfg.openaiModels| > 0
    ensures r.Some? <==> choice == "1" || choice == "2"
    ensures r.Some? ==> r.value.history == [] && HeadersFixed(r.value)
    ensures r.Some? ==> r.value.model == SelectModel(MenuModels(r.value.provider, cfg), index)
    ensures choice == "1" ==>
              && r.value.provider == Anthropic && r.value.apiKey == cfg.anthropicKey
              && r.value.apiUrl == AnthropicClient.DefaultUrl && r.value.model in cfg.anthropicModels
    ensures choice == "2" ==>
              && r.value.provider == OpenAI && r.value.apiKey == cfg.openaiKey
              && r.value.apiUrl == OpenAIUrl && r.value.model in cfg.openaiModels
  {
    match ChooseChatbot(choice)
    case None => None
    case Some(p) =>
      var key := if p == Anthropic then cfg.anthropicKey else cfg.openaiKey;
      var url := if p == Anthropic then AnthropicClient.DefaultUrl else OpenAIUrl;
      var client := NewClient(p, key, url, ModuleModels(cfg));
      Some(WithModel(client, SelectModel(MenuModels(p, cfg), index)))
  }

  /** A freshly built OpenAI client defaults to the first Anthropic model. */
  lemma OpenAIDefaultIsAnthropicModel(cfg: Config)
    requires |cfg.anthropicModels| > 0
    ensures NewClient(OpenAI, cfg.openaiKey, OpenAIUrl, ModuleModels(cfg)).model == cfg.anthropicModels[0]
  {
  }

  /** The exit test: the input, lower-cased and stripped, is "exit". */
  predicate IsExit(input: string) {
    Strip(Lower(input)) == "exit"
  }

  /** The exit test ignores case and surrounding white space, and nothing else. */
  lemma ExitIgnoresCaseAndSpace(input: string)
    ensures IsExit(input) <==> Lower(Strip(input)) == "exit"
  {
    StripLowerCommute(input);
  }

  /** Upper case and surrounding blanks still exit. */
  lemma ExitUpperCaseBlanks()
    ensures IsExit(" EXIT\n")
  {
    assert Lower(" EXIT\n") == " " + "exit" + "\n";
    StripPadded(" ", "exit", "\n");
  }

  /** Extra words after "exit" do not exit. */
  lemma ExitNeedsWholeInput()
    ensures !IsExit("exit now")
  {
    var n := "exit now";
    LowerOfLowerCase(n);
    assert !IsSpace(n[0]) && !IsSpace(n[|n| - 1]);
    assert StripLeft(n) == n && StripRight(n) == n;
  }

  /** Running totals of the session. */
  datatype Totals = Totals(cost: real, inputTokens: int, outputTokens: int)

  /** One exchange added to the totals: both token counts always, the cost only when known. */
  function AddExchange(t: Totals, usage: TokenUsage, cost: Option<real>): (t': Totals)
    ensures t'.inputTokens - t.inputTokens == usage.inputTokens
    ensures t'.outputTokens - t.outputTokens == usage.outputTokens
    ensures cost.None? ==> t'.cost == t.cost
    ensures cost.Some? ==> t'.cost - t.cost == cost.value
  {
    Totals(if cost.Some? then t.cost + cost.value else t.cost,
           t.inputTokens + usage.inputTokens,
           t.outputTokens + usage.outputTokens)
  }

  /** A completed exchange as the session saw it. */
  datatype Exchange = Exchange(prompt: string, reply: string, usage: TokenUsage, cost: Option<real>)

  /** The session state: the client, the totals and the exchanges completed so far. */
  datatype Session = Session(client: Client, totals: Totals, exchanges: seq<Exchange>)

  /** One step of the loop: a message read (with what the POST would produce if
      it were sent), a `None` from the input reader, or the end-of-file error
      `input()` raises. */
  datatype Step =
    | Entered(text: string, post: HttpOutcome)
    | Interrupted
    | InputClosed

  /** Why the program stops with an uncaught exception. */
  datatype Crash = SendRaised(error: SendError) | EndOfFile

  /** How the loop stands after the given steps: still waiting for input, left
      normally (exit or interrupt, after which saving is offered), or crashed. */
  datatype Status = AwaitingInput | Ended | Crashed(cause: Crash)

  datatype Run = Run(session: Session, status: Status)

  /** The session every run starts from: zero totals and no exchanges. */
  function InitialSession(c: Client): Session {
    Session(c, Totals(0.0, 0, 0), [])
  }

  /** Input tokens summed over the exchanges. */
  function SumInput(xs: seq<Exchange>): int {
    if |xs| == 0 then 0 else SumInput(xs[..|xs| - 1]) + xs[|xs| - 1].usage.inputTokens
  }

  /** Output tokens summed over the exchanges. */
  function SumOutput(xs: seq<Exchange>): int {
    if |xs| == 0 then 0 else SumOutput(xs[..|xs| - 1]) + xs[|xs| - 1].usage.outputTokens
  }

  /** The known costs summed over the exchanges; unknown costs count for nothing. */
  function SumKnownCost(xs: seq<Exchange>): real {
    if |xs| == 0 then 0.0 else SumKnownCost(xs[..|xs| - 1]) + xs[|xs| - 1].cost.GetOr(0.0)
  }

  /** The chat history the exchanges produce: each prompt followed by its reply. */
  function Transcript(xs: seq<Exchange>): seq<Turn> {
    if |xs| == 0 then []
    else Transcript(xs[..|xs| - 1]) + [(User, xs[|xs| - 1].prompt), (Assistant, xs[|xs| - 1].reply)]
  }

  /** The totals are the sums over the exchanges, and the client's history is
      exactly their transcript. */
  predicate Accounted(s: Session) {
    && s.totals == Totals(SumKnownCost(s.exchanges), SumInput(s.exchanges), SumOutput(s.exchanges))
    && s.client.history == Transcript(s.exchanges)
  }

  /** Every exchange was priced on the session's model. */
  predicate Priced(s: Session) {
    forall i :: 0 <= i < |s.exchanges| ==>
      s.exchanges[i].cost == GetTokenCost(s.client.model, s.exchanges[i].usage.inputTokens, s.exchanges[i].usage.outputTokens)
  }

  /** One completed exchange: recorded in the history, priced on the session's
      model and added to the totals. Both invariants are kept. */
  function CompleteExchange(s: Session, prompt: string, reply: Reply): (s': Session)
    ensures s'.client == UpdateChatHistory(s.client, prompt, reply.text)
    ensures |s'.exchanges| == |s.exchanges| + 1 && s'.exchanges[..|s.exchanges|] == s.exchanges
    ensures s'.exchanges[|s.exchanges|]
         == Exchange(prompt, reply.text, reply.usage,
                     GetTokenCost(s.client.model, reply.usage.inputTokens, reply.usage.outputTokens))
    ensures Accounted(s) ==> Accounted(s')
    ensures Priced(s) ==> Priced(s')
  {
    var cost := GetTokenCost(s.client.model, reply.usage.inputTokens, reply.usage.outputTokens);
    var x := Exchange(prompt, reply.text, reply.usage, cost);
    var xs := s.exchanges + [x];
    assert xs[..|xs| - 1] == s.exchanges;
    Session(UpdateChatHistory(s.client, prompt, reply.text), AddExchange(s.totals, reply.usage, cost), xs)
  }

  /** The chat loop over the given steps. A `None` input or an exit command ends
      it without sending; a failed send is not caught and ends the program; a
      successful send is priced and added to the totals. */
  function RunSession(s: Session, steps: seq<Step>): (r: Run)
    ensures r.session.client == s.client.(history := r.session.client.history)
    ensures |s.exchanges| <= |r.session.exchanges| && r.session.exchanges[..|s.exchanges|] == s.exchanges
    ensures |s.client.history| <= |r.session.client.history|
    ensures r.session.client.history[..|s.client.history|] == s.client.history
    ensures |r.session.client.history| - |s.client.history| == 2 * (|r.session.exchanges| - |s.exchanges|)
    ensures Accounted(s) ==> Accounted(r.session)
    ensures Priced(s) ==> Priced(r.session)
    decreases |steps|
  {
    if |steps| == 0 then Run(s, AwaitingInput)
    else match steps[0]
      case Interrupted => Run(s, Ended)
      case InputClosed => Run(s, Crashed(EndOfFile))
      case Entered(text, post) =>
        if IsExit(text) then Run(s, Ended)
        else
          var o := SendRequest(s.client, text, post);
          match o.result
          case Failure(e) => Run(s, Crashed(SendRaised(e)))
          case Success(reply) =>
            var s' := CompleteExchange(s, text, reply);
            var r := RunSession(s', steps[1..]);
            PrefixOfPrefix(r.session.exchanges, |s'.exchanges|, |s.exchanges|);
            PrefixOfPrefix(r.session.client.history, |s'.client.history|, |s.client.history|);
            r
  }

  /** A prefix of a prefix is a prefix. */
  lemma PrefixOfPrefix<T>(xs: seq<T>, m: nat, n: nat)
    requires n <= m <= |xs|
    ensures xs[..m][..n] == xs[..n]
  {
  }

  /** The whole program: pick a chatbot and a model, then run the loop from a
      fresh session. An invalid chatbot choice ends before any client exists. */
  function RunApp(cfg: Config, choice: string, index: Option<int>, steps: seq<Step>): (r: Option<Run>)
    requires |cfg.anthropicModels| > 0 && |cfg.openaiModels| > 0
    ensures r.Some? <==> choice == "1" || choice == "2"
    ensures r.Some? ==> Accounted(r.value.session) && Priced(r.value.session)
    ensures r.Some? ==> FollowsSteps(r.value.session.exchanges, steps)
    ensures r.Some? ==> r.value.session.client.model == SelectModel(MenuModels(r.value.session.client.provider, cfg), index)
  {
    match StartClient(cfg, choice, index)
    case None => None
    case Some(c) =>
      var s := InitialSession(c);
      ExchangesFollowSteps(s, steps);
      assert RunSession(s, steps).session.exchanges[|s.exchanges|..] == RunSession(s, steps).session.exchanges;
      Some(RunSession(s, steps))
  }

  /** A fresh session satisfies both invariants. */
  lemma InitialSessionAccounted(c: Client)
    requires c.history == []
    ensures Accounted(InitialSession(c)) && Priced(InitialSession(c))
  {
  }

  /** An exit command ends the loop at once: nothing is sent and nothing changes. */
  lemma ExitSendsNothing(s: Session, text: string, post: HttpOutcome, rest: seq<Step>)
    requires IsExit(text)
    ensures RunSession(s, [Entered(text, post)] + rest) == Run(s, Ended)
  {
  }

  /** A `None` from the input reader ends the loop without sending. */
  lemma InterruptEnds(s: Session, rest: seq<Step>)
    ensures RunSession(s, [Interrupted] + rest) == Run(s, Ended)
  {
  }

  /** A failed send is not caught by the loop: the program stops with that error,
      and neither the history nor the totals change. */
  lemma FailedSendStops(s: Session, text: string, post: HttpOutcome, rest: seq<Step>)
    requires !IsExit(text)
    requires SendRequest(s.client, text, post).result.Failure?
    ensures RunSession(s, [Entered(text, post)] + rest)
         == Run(s, Crashed(SendRaised(SendRequest(s.client, text, post).result.error)))
  {
  }

  /** A successful send is recorded and priced, and the loop carries on with
      the next step from the updated session. */
  lemma SuccessContinues(s: Session, text: string, post: HttpOutcome, rest: seq<Step>)
    requires !IsExit(text)
    requires SendRequest(s.client, text, post).result.Success?
    ensures RunSession(s, [Entered(text, post)] + rest)
         == RunSession(CompleteExchange(s, text, SendRequest(s.client, text, post).result.value), rest)
  {
    assert ([Entered(text, post)] + rest)[1..] == rest;
  }

  /** The end of input raised by `input()` is not caught: the program stops
      with nothing changed. */
  lemma InputClosedCrashes(s: Session, rest: seq<Step>)
    ensures RunSession(s, [InputClosed] + rest) == Run(s, Crashed(EndOfFile))
  {
  }

  /** The step that produced an exchange: a message, not an exit command,
      whose text is the exchange's prompt. */
  predicate SentBy(x: Exchange, step: Step) {
    step.Entered? && !IsExit(step.text) && x.prompt == step.text
  }

  /** Exchanges that line up with the first steps: the k-th exchange was sent
      by the k-th step. */
  predicate FollowsSteps(xs: seq<Exchange>, steps: seq<Step>) {
    |xs| <= |steps| && forall k :: 0 <= k < |xs| ==> SentBy(xs[k], steps[k])
  }

  /** The exchanges the loop adds are the successful sends of the first steps,
      in order, one per step with no step skipped, and a loop still waiting for
      input has completed an exchange for every step. */
  lemma {:induction false} ExchangesFollowSteps(s: Session, steps: seq<Step>)
    ensures var r := RunSession(s, steps);
            && FollowsSteps(r.session.exchanges[|s.exchanges|..], steps)
            && (r.status == AwaitingInput ==> |r.session.exchanges| - |s.exchanges| == |steps|)
    decreases |steps|
  {
    if |steps| > 0 && steps[0].Entered? && !IsExit(steps[0].text)
       && SendRequest(s.client, steps[0].text, steps[0].post).result.Success?
    {
      var text, post, rest := steps[0].text, steps[0].post, steps[1..];
      assert steps == [Entered(text, post)] + rest;
      var s' := CompleteExchange(s, text, SendRequest(s.client, text, post).result.value);
      SuccessContinues(s, text, post, rest);
      ExchangesFollowSteps(s', rest);
      var xs := RunSession(s', rest).session.exchanges;
      var x := s'.exchanges[|s.exchanges|];
      assert xs[|s.exchanges|..] == [x] + xs[|s'.exchanges|..];
      FollowsCons(x, xs[|s'.exchanges|..], steps);
    } else {
      FirstStepStops(s, steps);
    }
  }

  /** Unless the first step is a message sent successfully, the loop adds
      nothing, and it stops unless there were no steps at all. */
  lemma FirstStepStops(s: Session, steps: seq<Step>)
    requires !(|steps| > 0 && steps[0].Entered? && !IsExit(steps[0].text)
               && SendRequest(s.client, steps[0].text, steps[0].post).result.Success?)
    ensures RunSession(s, steps).session == s
    ensures RunSession(s, steps).status == AwaitingInput <==> |steps| == 0
  {
  }

  /** An exchange for the first step, followed by exchanges that line up with
      the remaining steps, lines up with all the steps. */
  lemma FollowsCons(x: Exchange, xs: seq<Exchange>, steps: seq<Step>)
    requires |steps| > 0 && SentBy(x, steps[0])
    requires FollowsSteps(xs, steps[1..])
    ensures FollowsSteps([x] + xs, steps)
  {
    forall k | 1 <= k < |xs| + 1
      ensures SentBy(([x] + xs)[k], steps[k])
    {
      assert steps[1..][k - 1] == steps[k];
      assert ([x] + xs)[k] == xs[k - 1];
    }
  }

  /** With the OpenAI client no exchange ever completes: the first message sent
      stops the program with the builder's argument error. */
  lemma OpenAISessionCompletesNothing(s: Session, steps: seq<Step>)
    requires s.client.provider == OpenAI
    ensures RunSession(s, steps).session == s
    ensures |steps| > 0 && steps[0].Entered? && !IsExit(steps[0].text) ==>
              RunSession(s, steps).status == Crashed(SendRaised(BuilderArity))
  {
  }

  /** For a priced model, the accumulated cost is exactly the price of the
      accumulated token counts: summing per exchange loses nothing. */
  lemma TotalCostIsCostOfTotals(s: Session)
    requires Accounted(s) && Priced(s)
    requires Lower(s.client.model) in Table
    ensures GetTokenCost(s.client.model, s.totals.inputTokens, s.totals.outputTokens) == Some(s.totals.cost)
  {
    PricedSums(s.client.model, s.exchanges);
  }

  lemma {:induction false} PricedSums(model: string, xs: seq<Exchange>)
    requires Lower(model) in Table
    requires forall i :: 0 <= i < |xs| ==>
               xs[i].cost == GetTokenCost(model, xs[i].usage.inputTokens, xs[i].usage.outputTokens)
    ensures GetTokenCost(model, SumInput(xs), SumOutput(xs)) == Some(SumKnownCost(xs))
    decreases |xs|
  {
    if |xs| == 0 {
      ZeroTokensCostNothing(model);
    } else {
      var init := xs[..|xs| - 1];
      var last := xs[|xs| - 1];
      PricedSums(model, init);
      CostAdditive(model, SumInput(init), SumOutput(init), last.usage.inputTokens, last.usage.outputTokens);
    }
  }

  /** For a model the table does not know, the cost total stays zero while the
      token totals still count every exchange. */
  lemma {:induction false} UnknownModelCostsNothing(s: Session)
    requires Accounted(s) && Priced(s)
    requires Lower(s.client.model) !in Table
    ensures s.totals.cost == 0.0
    ensures s.totals.inputTokens == SumInput(s.exchanges)
    ensures s.totals.outputTokens == SumOutput(s.exchanges)
  {
    UnpricedSum(s.client.model, s.exchanges);
  }

  lemma {:induction false} UnpricedSum(model: string, xs: seq<Exchange>)
    requires Lower(model) !in Table
    requires forall i :: 0 <= i < |xs| ==>
               xs[i].cost == GetTokenCost(model, xs[i].usage.inputTokens, xs[i].usage.outputTokens)
    ensures SumKnownCost(xs) == 0.0
    decreases |xs|
  {
    if |xs| > 0 {
      UnpricedSum(model, xs[..|xs| - 1]);
    }
  }
}
