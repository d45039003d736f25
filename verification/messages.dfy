/** The values that flow between the chat session, the provider clients and the
    HTTP endpoint: conversation turns, request bodies, decoded response bodies
    and token usage. JSON is represented by these datatypes, never as text. */
module Messages {
  import opened Wrappers

  /** The two speakers of a conversation, written "user" and "assistant" on the wire. */
  datatype Role = User | Assistant {
    function Name(): string {
      match this
      case User => "user"
      case Assistant => "assistant"
    }
  }

  /** One entry of a client's chat history: the `(role, content)` tuple. */
  type Turn = (Role, string)

  /** One `{"role": ..., "content": ...}` object of an Anthropic request body. */
  datatype Message = Message(role: Role, content: string)

  /** The reply length both request builders ask for, in tokens. */
  const MaxTokens := 1000

  /** A request body as a provider receives it. `MessagesRequest` is
      `{model, max_tokens, messages}`; `CompletionRequest` is the legacy
      single-prompt `{prompt, model, max_tokens}`. */
  datatype Request =
    | MessagesRequest(model: string, maxTokens: int, messages: seq<Message>)
    | CompletionRequest(prompt: string, model: string, maxTokens: int)

  /** HTTP request headers, name to value. */
  type Headers = map<string, string>

  /** One element of an Anthropic response's `content` list; every key may be missing. */
  datatype Block = Block(kind: Option<string>, text: Option<string>, code: Option<string>)

  /** An Anthropic response's `usage` object; either counter may be missing. */
  datatype UsageRecord = UsageRecord(inputTokens: Option<int>, outputTokens: Option<int>)

  /** One element of an OpenAI response's `choices` list. */
  datatype Choice = Choice(text: Option<string>)

  /** A decoded JSON response body, with the keys either provider reads. */
  datatype ResponseBody = ResponseBody(
    content: Option<seq<Block>>,
    usage: Option<UsageRecord>,
    choices: Option<seq<Choice>>)

  /** The normalized token counts of one exchange. */
  datatype TokenUsage = TokenUsage(inputTokens: int, outputTokens: int)

  /** What a successful exchange hands back to the caller: the reply text and its usage. */
  datatype Reply = Reply(text: string, usage: TokenUsage)

  /** The providers the application offers. */
  datatype Provider = Anthropic | OpenAI
}
