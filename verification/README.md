# term_chatbot core in Dafny

This project models the core of a terminal chat client that talks to hosted
language models (Anthropic, OpenAI), keeps the conversation history, and
reports token usage and cost. It covers these parts:

- **Provider clients.** Each client has a header map, a request-body builder
  and a response parser. The Anthropic client replays the whole chat history
  and then adds the new user turn. Its parser joins typed content blocks in
  order, puts code blocks inside a fence, and falls back to
  `"No response received."` when no text comes out. The OpenAI client sends a
  legacy `{prompt, model, max_tokens}` body and reads `choices[0].text`.
- **Client state machine** (`BaseClient`). A client is an immutable record with
  an append-only history. A send builds the body from the history as it was
  before the send, posts it, checks the status, parses the reply, and only then
  appends `(user, prompt)` and `(assistant, reply)`. The HTTP POST is an
  abstract outcome: the connection fails, or a status code arrives with a body
  that may or may not decode.
- **Pricing table.** Six models with exact decimal prices per million tokens.
  Lookup uses the lower-cased name. An unknown model has no cost at all, which
  is different from a cost of zero.
- **Application.** This covers the chatbot menu, the 1-based model menu with
  its fallback to the first model, the exit test, and the session loop. The
  loop is a fold over steps. It keeps running totals equal to the sums over
  the completed exchanges. The chat history it produces is exactly the
  transcript of those exchanges.
- **String builders.** `get_user_input` is a function over the lines typed,
  which may include a keyboard interrupt. `generate_initial_prompt` builds the
  opening prompt. `Text` models the Python string operations they use:
  `strip`, `lower`, `join` and `split`.

Behaviour of the code worth knowing:

- `send_request` failures are not caught by the loop in `app.py`, which
  catches only `KeyboardInterrupt`. So an HTTP error, a transport error or an
  undecodable body stops the program (`App.FailedSendStops`), and no later
  message is read.
- `send_request` calls `_get_request_data(prompt, chat_history)` with two
  arguments (`api_clients/base_client.py:32`). The OpenAI builder takes only
  one (`api_clients/openai_client.py:35`). So every OpenAI send raises a type
  error before anything is posted, and the history is left unchanged
  (`BaseClient.OpenAISendFails`, `App.OpenAISessionCompletesNothing`). The
  OpenAI parser returns a bare string where the base class unpacks a pair
  (`api_clients/base_client.py:35`). That line is never reached, because the
  builder call fails first.
- `api_clients/openai_client.py:7` reads the Anthropic model variable. A fresh
  OpenAI client therefore defaults to the first Anthropic model
  (`App.OpenAIDefaultIsAnthropicModel`). The application then replaces that
  default with a pick from the OpenAI list.
- `app.py:5` imports `AnthropicClient`, but the module defines only
  `AnthropicHTTPClient`. The model uses the class that is actually defined.
- The OpenAI client has no chat-completions body and reads no usage counters.
  Only the legacy prompt body and `choices[0].text` exist in the code.
- A body that does not decode as JSON makes `response.json()` raise. No
  fallback text is produced for it.

## Model

| member | source | states |
|---|---|---|
| Text.Strip | utils/input_utils.py:19 | the stripped text has no white space at either end, and it is empty exactly when the input is all white space |
| Text.StripLeftSpec | utils/input_utils.py:19 | left-stripping removes a white-space prefix and nothing else; what remains starts with a non-space |
| Text.StripRightSpec | utils/input_utils.py:19 | right-stripping removes a white-space suffix and nothing else; what remains ends with a non-space |
| Text.StripRemovesPadding | utils/input_utils.py:19 | the stripped text is a contiguous part of the input with only white space before and after it |
| Text.StripPadded | app.py:91 | a word with no white space at either end comes back unchanged from any white space put around it |
| Text.Lower | app.py:91 | lower-casing keeps the length and maps each character on its own |
| Text.StripLowerCommute | app.py:91 | stripping and lower-casing commute, so `lower().strip()` is a case-insensitive comparison of the trimmed text |
| Text.Split | app.py:19-20 | a comma split always has at least one part, and no part contains the separator |
| Text.JoinSplit | app.py:19-20 | joining the split parts back with the separator rebuilds the original string |
| Text.SplitJoin | utils/input_utils.py:22 | splitting a newline join gives back the parts, provided there is at least one part and none contains the separator |
| Text.JoinAppend | assistants/base_assistant.py:22-24 | joining one more part appends the separator and that part at the end, so joins keep the original order |
| AnthropicClient.GetHeaders | api_clients/anthropic_client.py:26-34 | exactly three headers: JSON content type, the API key under X-API-Key, and version 2023-06-01 |
| AnthropicClient.HistoryMessages | api_clients/anthropic_client.py:40-42 | one message per history turn, with the same role and content, in the same order |
| AnthropicClient.GetRequestData | api_clients/anthropic_client.py:36-50 | the body holds the given model, max_tokens 1000, the history's messages in order, and last a user message with the prompt; there is one message more than there are history turns |
| AnthropicClient.ParseResponse | api_clients/anthropic_client.py:52-73 | the text is the block extraction when it is non-empty, otherwise exactly "No response received." (so never empty); each usage counter is passed through when present and is 0 when it or the usage object is missing |
| AnthropicClient.ExtractTextAppend | api_clients/anthropic_client.py:62-67 | extraction distributes over concatenation of block lists |
| AnthropicClient.BlockAtPosition | api_clients/anthropic_client.py:62-67 | each block contributes its own text at its own position, between the text of the blocks before and after it |
| AnthropicClient.CodeBlockIsFenced | api_clients/anthropic_client.py:65-66 | a code block contributes exactly "```\n" + code + "\n```" at its position |
| AnthropicClient.OtherBlocksIgnored | api_clients/anthropic_client.py:62-67 | a block whose type is neither text nor code, or is missing, contributes nothing |
| AnthropicClient.NoRecognisedBlocks | api_clients/anthropic_client.py:60-73 | a response with only unrecognised blocks yields the fallback text |
| AnthropicClient.SingleTextBlock | tests/test_api_clients.py:55-78 | a single non-empty text block comes back verbatim, with its usage |
| AnthropicClient.TwoTextBlocks | api_clients/anthropic_client.py:62-64 | the text blocks "Hello, " and "world!" give "Hello, world!" |
| OpenAIClient.GetHeaders | api_clients/openai_client.py:26-33 | exactly two headers: JSON content type, and Authorization "Bearer " + key |
| OpenAIClient.GetRequestData | api_clients/openai_client.py:35-43 | the body is the legacy prompt shape with the prompt, the given model and max_tokens 1000; it takes no history |
| OpenAIClient.ParseResponse | api_clients/openai_client.py:45-49 | succeeds exactly when `choices` is present, non-empty and its first element has a text, and then returns that text; a missing or empty `choices` raises |
| OpenAIClient.LaterChoicesIgnored | api_clients/openai_client.py:49 | choices after the first never change the result |
| BaseClient.NewClient | api_clients/base_client.py:17-20 | a new client has an empty history, headers computed once from its key, and the first entry of the module's model list as its model |
| BaseClient.WithModel | app.py:72 | setting the model changes nothing else about the client |
| BaseClient.UpdateChatHistory | api_clients/base_client.py:39-48 | the history grows by exactly the user turn and then the assistant turn; earlier entries and every other field are unchanged |
| BaseClient.BuildRequest | api_clients/base_client.py:32 | the two-argument builder call succeeds for the Anthropic client and raises an arity error for the OpenAI client |
| BaseClient.SendRequest | api_clients/base_client.py:22-37 | every failure (arity, transport, 4xx/5xx status, undecodable body) leaves the client unchanged and is reported as its own error kind; a success appends (user, prompt) then (assistant, reply), returns the parsed reply, and posts the body built from the history before the send, to the client's URL with its stored headers |
| BaseClient.SentWithConstructionHeaders | api_clients/base_client.py:17-33 | however many sends came before, every POST uses the client's URL and the headers derived from its key at construction |
| BaseClient.SendAppendOnly | api_clients/base_client.py:34-48 | a send keeps the existing history as a prefix and the construction-time headers; the history grows by two exactly when the send succeeds |
| BaseClient.PromptSentOnceLast | api_clients/base_client.py:32 | the posted messages are the prior history's messages followed by the prompt, which appears once, last |
| BaseClient.NextRequestExtendsPrevious | api_clients/base_client.py:32-37 | after a successful send, the next request repeats the previous messages, then the assistant reply, then the new prompt |
| BaseClient.OpenAISendFails | api_clients/openai_client.py:35-43 | a send through the OpenAI client raises the arity error, posts nothing, and leaves the client unchanged |
| BaseClient.HelloExchange | tests/test_api_clients.py:50-78 | a fresh Anthropic client that sends "Hello" and gets one text block back returns that text with usage (5, 30) and records both turns |
| Pricing.GetTokenCost | utils/pricing_model.py:12-21 | the cost is absent exactly when the lower-cased name is not a table key |
| Pricing.CostFormula | utils/pricing_model.py:17-21 | for a known model, cost = (input price × input tokens + output price × output tokens) / 1,000,000 |
| Pricing.TableKeysLowerCase | utils/pricing_model.py:3-10 | every table key is already lower-case |
| Pricing.TableEntriesHavePrices | utils/pricing_model.py:3-15 | every listed model name has a cost |
| Pricing.CaseInsensitive | utils/pricing_model.py:13 | names that are equal after lower-casing have the same cost |
| Pricing.CostNonNegative | utils/pricing_model.py:17-21 | non-negative token counts never cost a negative amount |
| Pricing.ZeroTokensCostNothing | utils/pricing_model.py:17-21 | zero tokens on a known model cost exactly 0 |
| Pricing.CostAdditive | utils/pricing_model.py:17-21 | the cost of summed token counts is the sum of the separate costs |
| Pricing.Gpt4Example | utils/pricing_model.py:8 | one million input tokens on "gpt-4", and on "GPT-4", cost exactly 30 |
| Pricing.UnknownModelExample | utils/pricing_model.py:13-15 | "unknown-model" has no cost, rather than a cost of 0 |
| Pricing.TableSize | utils/pricing_model.py:3-10 | the table has exactly six entries |
| InputUtils.Collect | utils/input_utils.py:9-21 | reading stops at the first line that is an interrupt or strips to `/send`: it reports that line's position, an interrupt, or that the lines ran out with no stop |
| InputUtils.GetUserInput | utils/input_utils.py:2-22 | a message is the newline join of the lines before the first `/send` line, kept verbatim, consuming up to and including that line; an interrupt first gives None; running out of lines with no stop gives end of input |
| InputUtils.LaterLinesUnread | utils/input_utils.py:19-20 | once a `/send` line or an interrupt is read, lines after it make no difference |
| InputUtils.SendFirst | utils/input_utils.py:19-22 | `/send` as the first line gives the empty message |
| InputUtils.InterruptAbandons | utils/input_utils.py:16-18 | an interrupt before any `/send` line gives None |
| InputUtils.LinesKeptVerbatim | utils/input_utils.py:21-22 | splitting the message on newlines gives back exactly the typed lines, provided there is at least one |
| Assistant.TaskLines | assistants/base_assistant.py:24 | there is one `- task` line per task, in the original order |
| Assistant.InitialPrompt | assistants/base_assistant.py:21-32 | the prompt is, in this order: the name, role and motivation sentence; the environment sentence; the comma-joined personalities; the comma-joined emotions; the line introducing the tasks; and the task lines between "<tasks>\n" and "</tasks> " |
| Assistant.PersonalityAppended | assistants/base_assistant.py:23-28 | a personality added at the end of the list appears last, after ", ", and the other sentences do not change |
| Assistant.EmotionAppended | assistants/base_assistant.py:22-29 | an emotion added at the end of the list appears last, after ", " |
| Assistant.NoTasks | assistants/base_assistant.py:24-30 | with no tasks the prompt ends with "<tasks>\n</tasks> " |
| Assistant.TaskAppended | assistants/base_assistant.py:24 | adding a task adds exactly one "\n- task" line at the end of the task text |
| Assistant.TaskLinesRecoverable | assistants/base_assistant.py:24 | the task text splits back into one `- task` line per task, and each line minus its bullet is that task |
| App.ChooseChatbot | app.py:43-55 | "1" selects Anthropic, "2" selects OpenAI, and any other input selects nothing |
| App.SelectModel | app.py:68-77 | an index from 1 to the list length picks that model (counting from 1); anything else, or no number, picks the first model; the result is always on the list |
| App.StartClient | app.py:54-77 | a client exists exactly for choices "1" and "2"; it has the chosen provider's key and URL, an empty history, fixed headers, and exactly the model picked for the menu index from that provider's menu, with the first model as the fallback |
| App.OpenAIDefaultIsAnthropicModel | api_clients/openai_client.py:7-24 | a freshly built OpenAI client's default model is the first Anthropic model |
| App.ExitIgnoresCaseAndSpace | app.py:91-92 | the exit test holds exactly when the trimmed input, lower-cased, is "exit" |
| App.ExitUpperCaseBlanks | app.py:91 | " EXIT\n", upper case with surrounding blanks, exits |
| App.ExitNeedsWholeInput | app.py:91 | "exit now" does not exit: only the whole stripped input counts |
| App.AddExchange | app.py:98-101 | both token totals grow by the exchange's counts; the cost total grows by the cost only when it is known |
| App.CompleteExchange | app.py:94-101 | a completed exchange is recorded in the history, priced on the session's model, and added to the totals, keeping both session invariants |
| App.RunSession | app.py:85-114 | the loop changes nothing about the client except its history, so the model, provider, key, URL and headers stay fixed; it only extends the exchanges and the history (two turns per exchange); it keeps the totals equal to the sums over the exchanges and the history equal to their transcript |
| App.RunApp | app.py:39-114 | an invalid chatbot choice starts nothing; otherwise the client uses the model picked from the menu; the k-th exchange comes from the k-th step; and after any steps the totals are the sums of the per-exchange counts and known costs, starting from zero |
| App.SuccessContinues | app.py:94-101 | a successful send records and prices that exchange, and the loop carries on with the next step |
| App.InputClosedCrashes | app.py:87 | the end-of-file error from `input()` is not caught and stops the program with nothing changed |
| App.FirstStepStops | app.py:86-94 | unless the first step is a successful send, the loop adds no exchange, and it stops unless there were no steps |
| App.ExchangesFollowSteps | app.py:85-101 | the exchanges the loop adds come from the first steps, in order, with no step skipped; a loop still waiting for input has one new exchange per step |
| App.InitialSessionAccounted | app.py:80-83 | a fresh session with an empty history has zero totals matching its empty exchange list |
| App.ExitSendsNothing | app.py:91-92 | an exit command ends the loop with nothing sent and nothing changed |
| App.InterruptEnds | app.py:88-89 | a None from the input reader ends the loop with nothing sent and nothing changed |
| App.FailedSendStops | app.py:86-114 | a failed send is not caught: the program stops with that error, and the history and totals are unchanged |
| App.OpenAISessionCompletesNothing | api_clients/base_client.py:32 | with the OpenAI client no exchange ever completes; the first message sent stops the program with the arity error |
| App.TotalCostIsCostOfTotals | app.py:96-101 | for a priced model, the cost total is exactly the price of the token totals |
| App.UnknownModelCostsNothing | app.py:98-101 | for an unpriced model the cost total stays 0, while the input and output token totals are still the sums over every exchange |

## Left out

- The HTTP POST and `raise_for_status` are not implemented. The POST is an abstract outcome: the connection fails, or a status code arrives with a body that may not decode. `raise_for_status` is the status range 400–599. Timeouts, headers on the wire and JSON text are not modelled.
- Decoded JSON values are typed: block fields are strings and usage counters are integers. A `content` of `null`, or fields of other JSON types, would make the source raise, and the model does not cover them.
- Environment loading (`dotenv`, `os.getenv`) is not modelled. Keys and model lists are parameters (`App.Config`). A comma split always has at least one entry, so the lists are required to be non-empty. For the same reason the emptiness checks at `app.py:30-36` can never fire.
- All printing and display formatting is left out, including the `:.2f` rounding at `app.py:103-110`, the menus, and `BaseAssistant.introduce`.
- The save prompt and `save_chat_history` (`app.py:116-121`, `utils/file_utils.py`) are left out because they do filesystem I/O and use timestamps. The writer also indexes the list-typed history as a dictionary. `utils/time_utils.py` (wall clock, time zones) is not part of this model.
- `assistants/coding_assistant.py` is not part of this model, because it walks the filesystem and uses library glob matching. `process_input` and `generate_response` are unimplemented stubs.
- The model-index input is taken as already parsed: `Some(n)` for an integer, `None` when `int()` fails. Python's integer-literal syntax is not modelled.
- A keyboard interrupt is modelled only while a message is being read. An interrupt arriving during a send (`app.py:112-114`) is not modelled.
- Pricing.GetTokenCost: computes with exact rationals, not IEEE doubles. The source's float results can differ in the last bits.
- Text.Lower: lower-cases only the ASCII letters. Python's `str.lower` also maps other Unicode upper-case letters. That can matter for names containing such letters, for example the Kelvin sign lower-cases to `k`.
