/** The OpenAI completions client: bearer-token headers, the legacy
    single-prompt body and the first-choice parser. */
module OpenAIClient {
  import opened Wrappers
  import opened Messages

  /** Why the parser raises: `choices` is missing, empty, or its first element has no `text`. */
  datatype ParseError = MissingChoices | NoChoice | MissingText

  /** The two headers of every OpenAI request. */
  function GetHeaders(apiKey: string): (h: Headers)
    ensures h.Keys == {"Content-Type", "Authorization"}
    ensures h["Content-Type"] == "application/json"
    ensures h["Authorization"] == "Bearer " + apiKey
  {
    map["Content-Type" := "application/json", "Authorization" := "Bearer " + apiKey]
  }

  /** The request body: prompt, model and the token cap; no history takes part. */
  function GetRequestData(model: string, prompt: string): (r: Request)
    ensures r.CompletionRequest?
    ensures r.prompt == prompt && r.model == model && r.maxTokens == MaxTokens
  {
    CompletionRequest(prompt, model, MaxTokens)
  }

  /** `response.json()['choices'][0]['text']`: the first choice's text, or the
      lookup that raises. */
  function ParseResponse(body: ResponseBody): (r: Result<string, ParseError>)
    ensures r.Success? <==>
              body.choices.Some? && |body.choices.value| > 0 && body.choices.value[0].text.Some?
    ensures r.Success? ==> r.value == body.choices.value[0].text.value
    ensures body.choices.None? ==> r == Failure(MissingChoices)
    ensures body.choices == Some([]) ==> r == Failure(NoChoice)
  {
    match body.choices
    case None => Failure(MissingChoices)
    case Some(cs) =>
      if |cs| == 0 then Failure(NoChoice)
      else match cs[0].text
        case None => Failure(MissingText)
        case Some(t) => Success(t)
  }

  /** Only the first choice matters: later choices never change the result. */
  lemma LaterChoicesIgnored(first: Choice, rest: seq<Choice>, others: seq<Choice>)
    ensures ParseResponse(ResponseBody(None, None, Some([first] + rest)))
         == ParseResponse(ResponseBody(None, None, Some([first] + others)))
  {
  }
}
