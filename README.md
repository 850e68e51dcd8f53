# DeepSeekSession in Dafny

A model of `DeepSeekSession`, the stateful chat session of the *victoria* chat front end.
A session holds an API key, a model name and an ordered history of messages. Each message
has a role (`system`, `user` or `assistant`) and a text. `chat` appends the user's text,
sends the whole history to an OpenAI-style chat-completion endpoint, takes the reply out of
the response and appends it as an assistant message. `reset` keeps only the system prompt.
`replaceWithSummary` swaps the history for a system prompt plus a summary message.

Modules, leaf first:

- `Wrappers`: `Option` (Java's nullable references) and `Result` (Java's thrown exceptions).
- `JavaText`: `String.trim()` (removes characters up to U+0020 at both ends), the "blank" test
  `s.trim().isEmpty()`, and the `s == null ? "" : s` normalisation.
- `JsonTree`: the Jackson tree operations the session uses, `path(name)` and `asText()`, over a
  small JSON node datatype that includes Jackson's `MissingNode`.
- `Messages`: the `Message` value, its roles and their names on the wire.
- `Wire`: the request payload built from the history and the HTTP outcome decided by
  `postJson`. It also extracts the reply from the response tree.
- `History`: the history as a value. This holds the session invariant (a system message
  only ever at index 0) and the histories each operation produces. The lemmas about
  sequences of operations live here too.
- `Session`: the class `DeepSeekSession`, whose methods update `history` and `model` in
  place, and `Open`, the construction step that can fail.
- `Scenarios`: client runs against fixed transports. They show what a caller can conclude
  from the contracts alone.

The network exchange and JSON parsing are parameters of `Chat`. `transport` maps the request
to an `Exchange`: a status code with an optional body stream, or a failure. `parse` maps a
body to a JSON tree, or to `None` when the body is not JSON. The API key is a parameter of
`Open` and is not read from the environment.

Behaviour of the code worth noting:

- When `choices` is missing, is not an array or is empty, the reply is `""`. It is appended
  and returned; it is not a parse error.
- A first choice with no `message.content` also gives `""`, because `MissingNode.asText()`
  is `""`. An explicit JSON `null` content gives `"null"`.
- The summary prefix is the Spanish literal `"Resumen de la conversación hasta ahora: "`.
- "Empty" prompts, keys and model names mean blank after `trim()`, not just zero-length.

## Model

| member | source | states |
|---|---|---|
| JavaText.BlankIffAllTrimmed | src/main/java/vroddon/victoria/DeepSeekSession.java:43 | `s.trim().isEmpty()` holds exactly when every character of `s` is at most U+0020 |
| JavaText.TrimIsInfixAndIdempotent | src/main/java/vroddon/victoria/DeepSeekSession.java:43 | `trim()` returns a contiguous piece of its input, and trimming that again changes nothing |
| JavaText.TrimStart | src/main/java/vroddon/victoria/DeepSeekSession.java:43 | the leading part `trim()` drops consists only of characters up to U+0020, and what remains starts with a visible character |
| JavaText.TrimEnd | src/main/java/vroddon/victoria/DeepSeekSession.java:43 | the trailing part `trim()` drops consists only of characters up to U+0020, and what remains ends with a visible character |
| JavaText.VisibleStartNotBlank | src/main/java/vroddon/victoria/DeepSeekSession.java:59 | a string whose first character is visible passes the non-blank guard |
| Messages.ParseRoleInvertsRoleName | src/main/java/vroddon/victoria/DeepSeekSession.java:79 | the role names written into the payload identify the role: each reads back as its own role and as no other |
| Wire.Serialize | src/main/java/vroddon/victoria/DeepSeekSession.java:75-83 | the `messages` array has one element per history entry, in order, with that entry's role name and content |
| Wire.DeserializeSerialize | src/main/java/vroddon/victoria/DeepSeekSession.java:75-83 | reading the `messages` array back gives exactly the history it was built from |
| Wire.SerializeDeserialize | src/main/java/vroddon/victoria/DeepSeekSession.java:75-83 | any array that reads back as a history is that history's serialisation, so the encoding is one-to-one |
| Wire.BuildMessages | src/main/java/vroddon/victoria/DeepSeekSession.java:75-82 | the loop builds exactly the serialisation of the history |
| Wire.BuildPayload | src/main/java/vroddon/victoria/DeepSeekSession.java:72-84 | the payload carries the given model and `stream = false`, and its messages read back as the full history |
| Wire.ExtractReply | src/main/java/vroddon/victoria/DeepSeekSession.java:88-93 | a non-empty reply is only possible when `choices` is a non-empty array; otherwise the reply is `""` |
| Wire.ReplyOfCompletion | src/main/java/vroddon/victoria/DeepSeekSession.java:88-93 | for a well-formed completion the reply is the first choice's content, and `""` when there are no choices |
| Wire.ChatReply | src/main/java/vroddon/victoria/DeepSeekSession.java:86-93 | a non-2xx status fails with that status; a failed exchange is a transport error; a parse failure happens exactly when a 2xx body does not parse; success happens exactly when a 2xx body parses, and its value is the reply extracted from the tree (so an absent, non-array or empty `choices` succeeds with `""`) |
| Wire.ReplyOfResponse | src/main/java/vroddon/victoria/DeepSeekSession.java:89-93 | for every response whose `choices` is a non-empty array and whose first choice's `message.content` is text, the reply is that text, whatever other fields the response, choice and message carry |
| Wire.ReplyOfSuccessfulExchange | src/main/java/vroddon/victoria/DeepSeekSession.java:86-97 | a 2xx exchange whose body parses to any such response succeeds with the first choice's content and is never a parse error |
| History.InitialHistory | src/main/java/vroddon/victoria/DeepSeekSession.java:50-52 | a new history is `[("system", prompt)]` with the prompt untrimmed exactly when the prompt is non-null and non-blank, and empty otherwise |
| History.ConverseShape | src/main/java/vroddon/victoria/DeepSeekSession.java:67-97 | after N successful chat turns the history is the old prefix followed by N user/assistant pairs in call order (so 1 + 2N messages from a prompt) |
| History.AppendKeepsSystemFirst | src/main/java/vroddon/victoria/DeepSeekSession.java:69-96 | appending user or assistant messages keeps the system message, if any, alone at index 0 |
| History.ConverseKeepsSystemFirst | src/main/java/vroddon/victoria/DeepSeekSession.java:69-96 | any run of chat turns keeps the session invariant |
| History.FirstSystemIndex | src/main/java/vroddon/victoria/DeepSeekSession.java:105-111 | the search stops at the first system message, or at the end when there is none |
| History.ResetShape | src/main/java/vroddon/victoria/DeepSeekSession.java:103-116 | reset keeps at most one message. That message is a system message of the old history. It keeps one exactly when the old history has a system message |
| History.ResetUnderInvariant | src/main/java/vroddon/victoria/DeepSeekSession.java:103-116 | under the invariant, reset leaves the leading system message alone, or an empty history |
| History.ResetIdempotent | src/main/java/vroddon/victoria/DeepSeekSession.java:103-116 | resetting twice equals resetting once |
| History.ResetIgnoresAppended | src/main/java/vroddon/victoria/DeepSeekSession.java:103-116 | messages appended by chat, including orphaned questions, do not change what reset keeps, so reset gives back the construction prompt |
| History.SummaryShape | src/main/java/vroddon/victoria/DeepSeekSession.java:122-130 | the new history has two messages: the new prompt if it is non-blank, else the default prompt; then an assistant message. That message is the Spanish prefix followed by the summary, or by `""` when the summary is null |
| History.ResetAfterSummary | src/main/java/vroddon/victoria/DeepSeekSession.java:103-130 | a reset after a summary keeps only the summary's system prompt |
| Session.DeepSeekSession.constructor | src/main/java/vroddon/victoria/DeepSeekSession.java:46-52 | with a checked key, the model is `"deepseek-chat"` and the history is the initial history; both invariants hold |
| Session.Open | src/main/java/vroddon/victoria/DeepSeekSession.java:41-53 | construction fails exactly when the key is null or blank; otherwise a fresh session holds the key, the default model and the initial history |
| Session.DeepSeekSession.SetModel | src/main/java/vroddon/victoria/DeepSeekSession.java:58-62 | the model becomes the new name only when it is non-null and non-blank, else it is unchanged; the history is not touched |
| Session.DeepSeekSession.Chat | src/main/java/vroddon/victoria/DeepSeekSession.java:67-97 | the transport receives the payload of the old history plus the user message, with the current model. The result is the reply decided by the exchange. On success the history gains the user/assistant pair; on failure it gains the orphaned user message only. The model is unchanged |
| Session.DeepSeekSession.Reset | src/main/java/vroddon/victoria/DeepSeekSession.java:103-116 | the history becomes the reset history of the old one: the old first message if it is the system prompt, else nothing |
| Session.DeepSeekSession.ReplaceWithSummary | src/main/java/vroddon/victoria/DeepSeekSession.java:122-130 | the history becomes the summary history, whatever it was before; the invariant holds |
| Session.DeepSeekSession.HistorySnapshot | src/main/java/vroddon/victoria/DeepSeekSession.java:135-137 | the snapshot equals the history; a sequence value is never shared mutably |
| Scenarios.OpenFriendly | src/main/java/vroddon/victoria/ChatHandler.java:16 | the servlet's session starts with its friendly system prompt alone |
| Scenarios.GreetingRoundTrip | src/main/java/vroddon/victoria/DeepSeekSession.java:67-97 | answering "Hi there!" to "Hello" returns the reply and leaves prompt, question and reply in the history |
| Scenarios.EmptyChoices | src/main/java/vroddon/victoria/DeepSeekSession.java:88-96 | a 2xx response with an empty `choices` array returns `""` and appends it after the question |
| Scenarios.FailedExchange | src/main/java/vroddon/victoria/DeepSeekSession.java:160-173 | a 503 without a body fails with that status and leaves the question orphaned; a later reset keeps only the prompt |

## Left out

- The HTTP exchange itself (`postJson`, `readStreamToString`): opening the connection, the 15 s connect and 60 s read timeouts, writing the UTF-8 body, reading the stream line by line and disconnecting. These are I/O. The `transport` parameter stands for all of it, and every exception becomes `ExchangeFailed`. The joining of body lines without separators is not modelled.
- Jackson parsing (`readTree`) and printing (`toString`). The `parse` parameter stands for parsing. The payload is a datatype, not JSON text.
- The text of the exception messages (`"HTTP " + code + ...`, the missing-key message). Errors are `ChatError` variants that carry the status and the body, and `ConfigError` for construction.
- `System.getenv("DEEPSEEK")`. The key is an argument of `Open`.
- Session.DeepSeekSession.constructor: requires a key that is already non-blank. The Java constructor throws instead; that failure path is modelled by `Open`, the entry point clients use.
- Jackson's rendering of number nodes (a double `1e2` reads back as `"100.0"`) is not computed: the parser supplies a number's text as Jackson renders it.
- `Message.role` is a Java `String`. It is modelled as a three-valued `Role`, because the session only ever writes the three literals. `Message` objects are values here; they are immutable in Java, so sharing them is not observable.
- The `main` demo methods, the stateless `DeepSeek` class, the `ChatHandler` servlet (its fallback text and its one session shared across requests) and `WebServer`. These are I/O, duplicated code or server plumbing. Concurrent `chat` calls on one session are not modelled.
