# Gemini chat client: session manager and transcript reconciler

A Dafny model of the two stateful parts of a browser chat client that talks to
Gemini through a Google Apps Script proxy.

- **Session manager** (`GeminiService`, in `gemini_service.dfy`). `CreateChatSession` refuses to build a
  session while the proxy URL is still the setup placeholder. Otherwise it
  returns a `ClientChatSession` holding a model name and a `history` of
  role-tagged turns. `SendMessage` posts `history ++ [user turn]` through an
  abstract `fetch` and classifies the proxy's answer in a fixed order:
  HTTP status, then the `error` member, then the type of `text`. Only a valid
  reply appends the user turn and the model turn. A ghost list of the
  successful exchanges and the invariant `history == Transcript(exchanges)` say
  that N successful sends leave 2N turns, in call order.
- **Transcript reconciler** (`ChatApp.App`, in `chat_app.dfy`). The class owns `messages`, `isLoading`,
  `error` and `chat`. `InitChat` is the mount effect that creates the session.
  `HandleSendMessage` rejects a submit when there is no session, when a turn is
  loading, or when the input is blank. Otherwise it appends the user message
  and an empty Gemini placeholder in one update, folds every streamed chunk
  into the placeholder by id, drops the last message on an error, and always
  clears `isLoading`.
- Support modules: `Wrappers` (Option, Result), `Types` (`Sender`, `Message`), and
  `JsText`. `JsText` models `String.prototype.trim` and the decimal rendering
  of the status code in an error message.

Two facts about the code that shape the model:

- On a stream error the code removes only the last message, the placeholder
  (App.tsx:71). The user message stays in the transcript.
- The session has no streaming variant, so its history is only ever extended
  by `SendMessage`.

Environment parameters:

- `fetch` is a parameter `ProxyRequest -> FetchOutcome`. An outcome is either
  `Rejected(reason)` or `Received(response)`. `Rejected(reason)` covers a
  network failure of `fetch`, and a failure reading the body of a non-ok
  response with `response.text()`. `sendMessage` passes a rejection on as
  `NetworkError(reason)`.
- The streamed reply is a `StreamRun(chunks, failure)`. The chunks arrive in
  order. Then, if `failure` is present, an error carrying that message is
  thrown. This is a chunk list plus a failure index equal to its length. A
  failure with no chunks is `sendMessageStream` itself throwing.
- The two `crypto.randomUUID()` ids are parameters. A precondition says they
  are distinct and not yet used in the transcript.
- The proxy URL is a parameter of `CreateChatSession`. The URL the source
  ships with (`GAS_PROXY_URL`) passes the guard (`ShippedProxyUrlIsConfigured`).

## Model

| member | source | states |
|---|---|---|
| `GeminiService.CreateChatSession` | services/geminiService.ts:101-110 | Fails with the "not configured" message exactly when the URL is the placeholder; no request can be made on that path. Otherwise it returns a fresh session with the given model, an empty history and no exchanges. |
| `GeminiService.ShippedProxyUrlIsConfigured` | services/geminiService.ts:81-102 | The shipped proxy URL is not the placeholder, so the guard lets it through. |
| `GeminiService.ClientChatSession.constructor` | services/geminiService.ts:108-110 | A new session has the given model name and an empty history. |
| `GeminiService.BuildRequest` | services/geminiService.ts:114-126 | The request contents are the old history as a prefix, followed by exactly one `{role: user, text: message}` turn. The history value itself is not changed. |
| `GeminiService.Classify` | services/geminiService.ts:116-145 | The outcome is a reply iff it was received with an ok status, no error member and a string `text`; the reply is that text. A rejected request gives NetworkError with the rejection's message. A non-ok status gives RequestFailed(statusText, status) whatever the body. An error member on an ok status gives ApiError(message) whatever `text` is. A non-string `text` gives InvalidFormat. |
| `GeminiService.ErrorMessage` | services/geminiService.ts:132-144 | A rejection's message passes through unchanged. Every message `sendMessage` builds itself is non-empty. An API error reads "API Error: " followed by the proxy's message. |
| `GeminiService.ClientChatSession.SendMessage` | services/geminiService.ts:112-152 | The result is the classification of `fetch` applied to the request built from the old history. On a reply, history becomes old history ++ [user(message), model(reply)] and the reply is returned. On any error, including a rejected request, history and exchanges are unchanged. The invariant history == Transcript(exchanges) is kept. |
| `GeminiService.Transcript` | services/geminiService.ts:148-149 | N successful exchanges leave a history of length 2N. |
| `GeminiService.TranscriptAt` | services/geminiService.ts:148-149 | The i-th successful exchange sits at positions 2i (user turn with its message) and 2i+1 (model turn with its reply), so call order is kept. |
| `GeminiService.TranscriptAlternates` | services/geminiService.ts:148-149 | History roles alternate: user at even positions, model at odd positions. |
| `JsText.TrimStart` | App.tsx:37 | The result is a suffix of the input. Everything dropped is whitespace. A non-empty result starts with a non-whitespace character. |
| `JsText.TrimEnd` | App.tsx:37 | The result is a prefix of the input. Everything dropped is whitespace. A non-empty result ends with a non-whitespace character. |
| `JsText.TrimEmptyIffAllWhitespace` | App.tsx:37 | `input.trim()` is empty, so the input counts as blank, exactly when every character is ECMAScript whitespace. |
| `JsText.NatToString` | services/geminiService.ts:132 | The status renders as a non-empty string of decimal digits with no leading zero. |
| `JsText.DecimalRoundTrip` | services/geminiService.ts:132 | The rendered status reads back as the same number. |
| `ChatApp.ConcatAppend` | App.tsx:60-67 | The text of a stream split into two parts is the text of the first part followed by the text of the second. |
| `ChatApp.StreamedTextIsPrefix` | App.tsx:60-67 | After the first i chunks, the streamed text is a prefix of the complete reply, and the rest of the reply is the text of the remaining chunks. Streaming only ever extends the placeholder. |
| `ChatApp.ApplyChunk` | App.tsx:62-66 | One chunk update keeps every message's position, id and sender. Exactly the messages whose id matches get the chunk appended to their text; the others keep theirs. |
| `ChatApp.FoldChunksExtends` | App.tsx:60-67 | Chunks F1..Fk leave a message carrying the placeholder id with the same id and sender and the text old text + F1 + ... + Fk. After i chunks that is the concat of the first i. |
| `ChatApp.FoldChunksPreserves` | App.tsx:60-67 | Folding chunks into the placeholder id leaves every message with another id exactly as it was. |
| `ChatApp.PendingTurnSettles` | App.tsx:55-67 | Streaming into the fresh placeholder that ends the transcript leaves prev ++ [user message, placeholder with text concat(F1..Fk)]. |
| `ChatApp.App.constructor` | App.tsx:10-13 | Initial state: no messages, not loading, no error, no session. |
| `ChatApp.App.InitChat` | App.tsx:16-24 | If creation throws, `error` is its message (or the default text) and `chat` is unchanged. Otherwise `chat` is a fresh, empty session for the model and `error` is unchanged. Messages and loading flag are untouched. |
| `ChatApp.App.BeginTurn` | App.tsx:39-55 | An accepted submit sets loading, clears the error, and appends the user message and the empty Gemini placeholder in one assignment. |
| `ChatApp.App.ReceiveChunk` | App.tsx:61-66 | One chunk rewrites the transcript by ApplyChunk with the placeholder id. |
| `ChatApp.App.ReceiveStream` | App.tsx:60-67 | After the loop, the transcript is the chunks folded in arrival order. After i chunks it is the fold of the first i chunks (loop invariant). |
| `ChatApp.App.RollBack` | App.tsx:68-72 | `error` is the exception message (or the default text). The transcript loses exactly its last element, and an empty transcript stays empty. |
| `ChatApp.App.RunTurn` | App.tsx:39-75 | The accepted path always ends with `isLoading` false and `chat` unchanged. A completed stream leaves prev ++ [user message, placeholder with the concat of all chunks] and no error. A failed stream leaves prev ++ [user message] and the exception message (or the default text) as the error. |
| `ChatApp.App.HandleSendMessage` | App.tsx:32-76 | No session: error "Chat session is not initialized.", nothing else changes. Loading or blank input: nothing changes. Accepted and the stream completes: prev ++ [user message, placeholder holding concat of all chunks], no error. Accepted and the stream fails: prev ++ [user message], with the placeholder and its partial text gone and the error set. `isLoading` is false after every accepted submit, and `chat` never changes. |

## Left out

- `fetch` transport, HTTP headers, `JSON.stringify` and `response.json()` are abstracted. The outcome is a rejection or a `ProxyResponse` carrying the status, status text, error member and text member. A body that is not JSON, and a JSON `null` body (which would make `data.error` throw a TypeError), are not modelled.
- The error body that `response.text()` reads is only logged, so its contents are not modelled. Only the rejection of that read is modelled. No `console.error` call is modelled.
- An `error` member whose `message` is missing would print "undefined" in the thrown message. The model always carries a string message.
- `ErrorMessage`: the contract does not spell out the request-failed format "Request failed: <statusText> (Status: <status>)". The body builds it, and `NatToString`/`DecimalRoundTrip` cover the status rendering.
- The Apps Script `doPost` in the comment block of services/geminiService.ts runs on an external server and is not part of this model.
- async/await and `for await` scheduling are not modelled. The handler is one sequential method over a `StreamRun`. The `isLoading` flag stands in for the re-entrancy guard, and stale React closures are not modelled.
- A chunk whose `text` is undefined would append "undefined". Chunks are strings here.
- `crypto.randomUUID()` is replaced by id parameters.
- App.tsx:18 calls `createChatSession()` without a model, and App.tsx:58 calls `sendMessageStream`, which the session object does not define. `InitChat` takes the model as a parameter. The reconciler runs against an abstract stream, so the App never changes the session's history.
- JavaScript strings are UTF-16 code units. Dafny's `char` is a Unicode scalar value, so `trim` is modelled per character.
- The scroll effect and all JSX rendering in App.tsx are not modelled.
- components/ChatMessage.tsx, components/Icons.tsx and components/ChatInput.tsx are presentation and are not part of this model. The trim guard in ChatInput.tsx duplicates App.tsx:37.
