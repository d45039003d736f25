/** The provider-agnostic client: an immutable record holding the credentials,
    the headers computed once at construction, the current model and the
    append-only chat history, and the send operation that builds a body from
    the history, posts it, checks the status, parses the reply and only then
    records the exchange. The HTTP POST itself is an abstract outcome. */
module BaseClient {
  import opened Wrappers
  import opened Messages
  import AnthropicClient
  import OpenAIClient

  /** A client: the state of one provider binding over a session. */
  datatype Client = Client(
    provider: Provider,
    apiKey: string,
    apiUrl: string,
    headers: Headers,
    model: string,
    history: seq<Turn>)

  /** What `requests.post` produced: it raised before any response arrived,
      or a response with a status code and a body that may not decode as JSON. */
  datatype HttpOutcome =
    | ConnectionFailed
    | HttpResponse(status: int, body: Option<ResponseBody>)

  /** Why a send raised, each kind distinguishable by the caller. */
  datatype SendError =
    | BuilderArity          // the request builder was called with more arguments than it takes
    | Transport             // the POST itself raised
    | HttpStatus(status: int)  // the status check raised
    | MalformedBody         // the body did not decode as JSON

  /** One POST as issued: the endpoint, the header map and the JSON body. */
  datatype Post = Post(url: string, headers: Headers, body: Request)

  /** The result of one send: the client afterwards, the POST that was issued
      (if the send got that far) and the reply or the error raised. */
  datatype SendOutcome = SendOutcome(client: Client, posted: Option<Post>, result: Result<Reply, SendError>)

  /** The provider's header map for an API key. */
  function HeadersFor(provider: Provider, apiKey: string): Headers {
    match provider
    case Anthropic => AnthropicClient.GetHeaders(apiKey)
    case OpenAI => OpenAIClient.GetHeaders(apiKey)
  }

  /** The headers are the ones the provider derives from the client's key. */
  predicate HeadersFixed(c: Client) {
    c.headers == HeadersFor(c.provider, c.apiKey)
  }

  /** A new client: headers computed once from the key, an empty history, and the
      first entry of the provider module's model list as the model. */
  function NewClient(provider: Provider, apiKey: string, apiUrl: string, moduleModels: seq<string>): (c: Client)
    requires |moduleModels| > 0
    ensures c.history == []
    ensures HeadersFixed(c)
    ensures c.provider == provider && c.apiKey == apiKey && c.apiUrl == apiUrl
    ensures c.model == moduleModels[0]
  {
    Client(provider, apiKey, apiUrl, HeadersFor(provider, apiKey), moduleModels[0], [])
  }

  /** Assigning the public `model` attribute. */
  function WithModel(c: Client, model: string): (c': Client)
    ensures c'.model == model
    ensures c'.history == c.history && c'.headers == c.headers
    ensures c'.provider == c.provider && c'.apiKey == c.apiKey && c'.apiUrl == c.apiUrl
  {
    c.(model := model)
  }

  /** `update_chat_history`: the user turn, then the assistant turn, appended. */
  function UpdateChatHistory(c: Client, prompt: string, reply: string): (c': Client)
    ensures |c'.history| == |c.history| + 2
    ensures c'.history[..|c.history|] == c.history
    ensures c'.history[|c.history|] == (User, prompt)
    ensures c'.history[|c.history| + 1] == (Assistant, reply)
    ensures c' == c.(history := c'.history)
  {
    c.(history := c.history + [(User, prompt), (Assistant, reply)])
  }

  /** `self._get_request_data(prompt, self.chat_history)`: the Anthropic builder
      takes both arguments; the OpenAI builder accepts only the prompt, so the
      call raises a type error before anything is posted. */
  function BuildRequest(c: Client, prompt: string): (r: Result<Request, SendError>)
    ensures c.provider == OpenAI ==> r == Failure(BuilderArity)
    ensures c.provider == Anthropic ==> r.Success? && r.value.MessagesRequest?
  {
    match c.provider
    case Anthropic => Success(AnthropicClient.GetRequestData(c.model, prompt, c.history))
    case OpenAI => Failure(BuilderArity)
  }

  /** `raise_for_status` raises exactly for client (4xx) and server (5xx) errors. */
  predicate StatusRaises(status: int) {
    400 <= status < 600
  }

  /** `send_request`: build from the current history, post, check the status,
      parse, and record the exchange. Every failure leaves the client as it was. */
  function SendRequest(c: Client, prompt: string, post: HttpOutcome): (o: SendOutcome)
    ensures o.result.Failure? ==> o.client == c
    ensures o.result.Success? ==>
              o.client == c.(history := c.history + [(User, prompt), (Assistant, o.result.value.text)])
    ensures o.posted.Some? ==>
              o.posted.value == Post(c.apiUrl, c.headers, AnthropicClient.GetRequestData(c.model, prompt, c.history))
    ensures o.posted.Some? <==> c.provider == Anthropic
    ensures c.provider == OpenAI ==> o.result == Failure(BuilderArity)
    ensures c.provider == Anthropic && post.ConnectionFailed? ==> o.result == Failure(Transport)
    ensures c.provider == Anthropic && post.HttpResponse? && StatusRaises(post.status) ==>
              o.result == Failure(HttpStatus(post.status))
    ensures c.provider == Anthropic && post.HttpResponse? && !StatusRaises(post.status) && post.body.None? ==>
              o.result == Failure(MalformedBody)
    ensures o.result.Success? <==>
              c.provider == Anthropic && post.HttpResponse? && !StatusRaises(post.status) && post.body.Some?
    ensures o.result.Success? ==> o.result.value == AnthropicClient.ParseResponse(post.body.value)
  {
    match BuildRequest(c, prompt)
    case Failure(e) => SendOutcome(c, None, Failure(e))
    case Success(data) =>
      var sent := Post(c.apiUrl, c.headers, data);
      match post
      case ConnectionFailed => SendOutcome(c, Some(sent), Failure(Transport))
      case HttpResponse(status, body) =>
        if StatusRaises(status) then SendOutcome(c, Some(sent), Failure(HttpStatus(status)))
        else if body.None? then SendOutcome(c, Some(sent), Failure(MalformedBody))
        else
          var reply := AnthropicClient.ParseResponse(body.value);
          SendOutcome(UpdateChatHistory(c, prompt, reply.text), Some(sent), Success(reply))
  }

  /** A send never rewrites what was already recorded, keeps the headers fixed
      at construction, and grows the history by two turns exactly when it succeeds. */
  lemma SendAppendOnly(c: Client, prompt: string, post: HttpOutcome)
    requires HeadersFixed(c)
    ensures var o := SendRequest(c, prompt, post);
            && HeadersFixed(o.client)
            && |o.client.history| == |c.history| + (if o.result.Success? then 2 else 0)
            && o.client.history[..|c.history|] == c.history
  {
  }

  /** The prompt reaches the provider once, as the last message; everything
      before it is the history as it stood before this send. */
  lemma PromptSentOnceLast(c: Client, prompt: string, post: HttpOutcome)
    requires c.provider == Anthropic
    ensures var o := SendRequest(c, prompt, post);
            && o.posted.Some?
            && o.posted.value.body.messages == AnthropicClient.HistoryMessages(c.history) + [Message(User, prompt)]
  {
    var data := AnthropicClient.GetRequestData(c.model, prompt, c.history);
    assert data.messages == data.messages[..|c.history|] + [data.messages[|c.history|]];
  }

  /** Every POST goes to the client's URL with the headers derived from its key
      at construction, however long the session has run. */
  lemma {:induction false} SentWithConstructionHeaders(c: Client, prompts: seq<string>, posts: seq<HttpOutcome>)
    requires c.provider == Anthropic && HeadersFixed(c)
    requires |posts| == |prompts| > 0
    ensures var o := SendAll(c, prompts, posts);
            && o.posted.Some?
            && o.posted.value.url == c.apiUrl
            && o.posted.value.headers == AnthropicClient.GetHeaders(c.apiKey)
    decreases |prompts|
  {
    var o := SendRequest(c, prompts[0], posts[0]);
    if |prompts| > 1 && o.result.Success? {
      SentWithConstructionHeaders(o.client, prompts[1..], posts[1..]);
    }
  }

  /** Prompts sent one after another, each with its own POST outcome, stopping
      at the first failure; the outcome of the last send made. */
  function SendAll(c: Client, prompts: seq<string>, posts: seq<HttpOutcome>): (o: SendOutcome)
    requires |posts| == |prompts| > 0
    ensures o.client.provider == c.provider && o.client.apiKey == c.apiKey && o.client.apiUrl == c.apiUrl
    decreases |prompts|
  {
    var o := SendRequest(c, prompts[0], posts[0]);
    if |prompts| > 1 && o.result.Success? then SendAll(o.client, prompts[1..], posts[1..]) else o
  }

  /** Conversation replay: after a successful send, the next request repeats the
      previous request's messages, then the assistant's reply, then the new prompt. */
  lemma NextRequestExtendsPrevious(c: Client, p1: string, post1: HttpOutcome, p2: string, post2: HttpOutcome)
    requires c.provider == Anthropic
    requires SendRequest(c, p1, post1).result.Success?
    ensures var o1 := SendRequest(c, p1, post1);
            var o2 := SendRequest(o1.client, p2, post2);
            o2.posted.value.body.messages
              == o1.posted.value.body.messages + [Message(Assistant, o1.result.value.text), Message(User, p2)]
  {
    var o1 := SendRequest(c, p1, post1);
    var h := c.history;
    var h1 := h + [(User, p1)];
    var h2 := h1 + [(Assistant, o1.result.value.text)];
    assert o1.client.history == h2;
    assert h2[..|h2| - 1] == h1 && h1[..|h1| - 1] == h;
    PromptSentOnceLast(c, p1, post1);
    PromptSentOnceLast(o1.client, p2, post2);
  }

  /** Sending through the OpenAI client always raises before the POST and never
      touches the history. */
  lemma OpenAISendFails(c: Client, prompt: string, post: HttpOutcome)
    requires c.provider == OpenAI
    ensures SendRequest(c, prompt, post) == SendOutcome(c, None, Failure(BuilderArity))
  {
  }

  /** The recorded Anthropic exchange: a new client that sends "Hello" and gets
      one text block back returns that text, and its history holds both turns. */
  lemma HelloExchange(apiKey: string, models: seq<string>)
    requires |models| > 0
    ensures var c := NewClient(Anthropic, apiKey, AnthropicClient.DefaultUrl, models);
            var body := ResponseBody(Some([Block(Some("text"), Some("This is a test response from the AI."), None)]),
                                     Some(UsageRecord(Some(5), Some(30))), None);
            var o := SendRequest(c, "Hello", HttpResponse(200, Some(body)));
            && o.result == Success(Reply("This is a test response from the AI.", TokenUsage(5, 30)))
            && o.client.history == [(User, "Hello"), (Assistant, "This is a test response from the AI.")]
  {
    AnthropicClient.SingleTextBlock("This is a test response from the AI.", 5, 30);
  }
}
