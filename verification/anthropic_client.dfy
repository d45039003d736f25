/** The Anthropic messages-API client: its headers, the history-replaying
    request body and the parser of typed content blocks. */
module AnthropicClient {
  import opened Wrappers
  import opened Messages

  const ApiVersion := "2023-06-01"
  const DefaultUrl := "https://api.anthropic.com/v1/messages"
  /** The reply text used when no block contributed any text. */
  const NoResponse := "No response received."

  /** The three headers of every Anthropic request. */
  function GetHeaders(apiKey: string): (h: Headers)
    ensures h.Keys == {"Content-Type", "X-API-Key", "Anthropic-Version"}
    ensures h["Content-Type"] == "application/json"
    ensures h["X-API-Key"] == apiKey
    ensures h["Anthropic-Version"] == ApiVersion
  {
    map["Content-Type" := "application/json", "X-API-Key" := apiKey, "Anthropic-Version" := ApiVersion]
  }

  /** A history turn as a request message. */
  function ToMessage(t: Turn): Message {
    Message(t.0, t.1)
  }

  /** The history replayed as messages, one per turn, in the same order. */
  function HistoryMessages(history: seq<Turn>): (ms: seq<Message>)
    ensures |ms| == |history|
    ensures forall i :: 0 <= i < |history| ==> ms[i] == Message(history[i].0, history[i].1)
  {
    if |history| == 0 then []
    else HistoryMessages(history[..|history| - 1]) + [ToMessage(history[|history| - 1])]
  }

  /** The request body: the history's messages in order, then the new user turn. */
  function GetRequestData(model: string, prompt: string, history: seq<Turn>): (r: Request)
    ensures r.MessagesRequest? && r.model == model && r.maxTokens == MaxTokens
    ensures |r.messages| == |history| + 1
    ensures r.messages[..|history|] == HistoryMessages(history)
    ensures r.messages[|history|] == Message(User, prompt)
  {
    MessagesRequest(model, MaxTokens, HistoryMessages(history) + [Message(User, prompt)])
  }

  /** The text one content block contributes: a text block its text, a code
      block its code inside a fence, any other block nothing. */
  function BlockText(b: Block): string {
    if b.kind == Some("text") then b.text.GetOr("")
    else if b.kind == Some("code") then "```\n" + b.code.GetOr("") + "\n```"
    else ""
  }

  /** The in-order concatenation of the blocks' texts. */
  function ExtractText(blocks: seq<Block>): string {
    if |blocks| == 0 then "" else BlockText(blocks[0]) + ExtractText(blocks[1..])
  }

  /** Parses a decoded response: the concatenated block text (or the fallback
      when it is empty) and the usage counters, missing ones read as 0. */
  function ParseResponse(body: ResponseBody): (r: Reply)
    ensures r.text != ""
    ensures ExtractText(body.content.GetOr([])) != "" ==> r.text == ExtractText(body.content.GetOr([]))
    ensures ExtractText(body.content.GetOr([])) == "" ==> r.text == NoResponse
    ensures body.usage.None? ==> r.usage == TokenUsage(0, 0)
    ensures body.usage.Some? && body.usage.value.inputTokens.Some? ==>
              r.usage.inputTokens == body.usage.value.inputTokens.value
    ensures body.usage.Some? && body.usage.value.inputTokens.None? ==> r.usage.inputTokens == 0
    ensures body.usage.Some? && body.usage.value.outputTokens.Some? ==>
              r.usage.outputTokens == body.usage.value.outputTokens.value
    ensures body.usage.Some? && body.usage.value.outputTokens.None? ==> r.usage.outputTokens == 0
  {
    var result := ExtractText(body.content.GetOr([]));
    var usage := body.usage.GetOr(UsageRecord(None, None));
    Reply(if result == "" then NoResponse else result,
          TokenUsage(usage.inputTokens.GetOr(0), usage.outputTokens.GetOr(0)))
  }

  /** Extraction distributes over concatenation: each block contributes at its own position. */
  lemma {:induction false} ExtractTextAppend(a: seq<Block>, b: seq<Block>)
    ensures ExtractText(a + b) == ExtractText(a) + ExtractText(b)
    decreases |a|
  {
    if |a| > 0 {
      assert (a + b)[0] == a[0];
      assert (a + b)[1..] == a[1..] + b;
      ExtractTextAppend(a[1..], b);
    } else {
      assert a + b == b;
    }
  }

  /** A block in the middle of a response contributes exactly its own text there. */
  lemma BlockAtPosition(before: seq<Block>, b: Block, after: seq<Block>)
    ensures ExtractText(before + [b] + after) == ExtractText(before) + BlockText(b) + ExtractText(after)
  {
    ExtractTextAppend(before + [b], after);
    ExtractTextAppend(before, [b]);
  }

  /** A code block contributes its code fenced by three back-quotes, whatever surrounds it. */
  lemma CodeBlockIsFenced(before: seq<Block>, code: string, after: seq<Block>)
    ensures ExtractText(before + [Block(Some("code"), None, Some(code))] + after)
         == ExtractText(before) + "```\n" + code + "\n```" + ExtractText(after)
  {
    BlockAtPosition(before, Block(Some("code"), None, Some(code)), after);
  }

  /** Blocks of an unrecognised type (or with no type) contribute nothing. */
  lemma OtherBlocksIgnored(before: seq<Block>, b: Block, after: seq<Block>)
    requires b.kind != Some("text") && b.kind != Some("code")
    ensures ExtractText(before + [b] + after) == ExtractText(before + after)
  {
    BlockAtPosition(before, b, after);
    ExtractTextAppend(before, after);
  }

  /** A response whose blocks are all of unrecognised types yields the fallback text. */
  lemma {:induction false} NoRecognisedBlocks(blocks: seq<Block>)
    requires forall i :: 0 <= i < |blocks| ==> blocks[i].kind != Some("text") && blocks[i].kind != Some("code")
    ensures ExtractText(blocks) == ""
    ensures ParseResponse(ResponseBody(Some(blocks), None, None)).text == NoResponse
    decreases |blocks|
  {
    if |blocks| > 0 {
      NoRecognisedBlocks(blocks[1..]);
    }
  }

  /** A single text block comes back verbatim, with the usage it reports. */
  lemma SingleTextBlock(text: string, inputTokens: int, outputTokens: int)
    requires text != ""
    ensures ParseResponse(ResponseBody(Some([Block(Some("text"), Some(text), None)]),
                                       Some(UsageRecord(Some(inputTokens), Some(outputTokens))), None))
         == Reply(text, TokenUsage(inputTokens, outputTokens))
  {
    assert ExtractText([Block(Some("text"), Some(text), None)]) == text + "";
  }

  /** Two text blocks are joined with nothing in between. */
  lemma TwoTextBlocks()
    ensures ParseResponse(ResponseBody(Some([Block(Some("text"), Some("Hello, "), None),
                                             Block(Some("text"), Some("world!"), None)]), None, None)).text
         == "Hello, world!"
  {
    var blocks := [Block(Some("text"), Some("Hello, "), None), Block(Some("text"), Some("world!"), None)];
    assert ExtractText(blocks[1..]) == "world!";
    assert ExtractText(blocks) == "Hello, " + "world!";
  }
}
