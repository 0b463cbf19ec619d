/**
 * The client side of the Google Apps Script proxy (services/geminiService.ts):
 * a configuration guard that refuses to build a session while the proxy URL is
 * still the setup placeholder, and a session object whose `SendMessage` posts
 * the whole conversation plus the new user turn, classifies the proxy's answer,
 * and appends exactly one user turn and one model turn on success only.
 */
module GeminiService {
  import opened Wrappers
  import JsText

  /** The deployed proxy URL the source ships with. */
  const GAS_PROXY_URL: string :=
    "https://script.google.com/macros/s/AKfycbwD9oFg6W8u6RQ1Wpes9chs0MyUMNK593hHNDKgstfhYsXDicMzTtm82P9RMNvftra7/exec"

  /** The value the setup instructions ask the user to replace. */
  const PROXY_URL_PLACEHOLDER: string := "PASTE_YOUR_GOOGLE_APPS_SCRIPT_WEB_APP_URL_HERE"

  const NOT_CONFIGURED_MESSAGE: string :=
    "Google Apps Script proxy URL is not configured. Please follow the setup instructions in `services/geminiService.ts`."

  const INVALID_FORMAT_MESSAGE: string := "Invalid response format received from the proxy."

  /** The role of a conversation turn as the Gemini API spells it ('user' | 'model'). */
  datatype Role = User | Model

  datatype Part = Part(text: string)

  /** One turn of the conversation history (`GeminiContent`). */
  datatype Content = Content(role: Role, parts: seq<Part>)

  /** The single-part turn the session builds: `{ role, parts: [{ text }] }`. */
  function Turn(role: Role, text: string): Content {
    Content(role, [Part(text)])
  }

  /** A POST to the proxy: its URL and the `contents` of its JSON body. */
  datatype ProxyRequest = ProxyRequest(url: string, contents: seq<Content>)

  /** A truthy `error` member of the proxy's JSON answer. */
  datatype ProxyError = ProxyError(message: string)

  /** The `text` member of the proxy's JSON answer: a string, or anything else. */
  datatype TextField = TextString(value: string) | TextNotString

  /**
   * What `fetch` resolves to: the HTTP status and status text, and the parsed
   * JSON body's `error` (None when absent or falsy) and `text` members.
   */
  datatype ProxyResponse = ProxyResponse(status: nat, statusText: string, error: Option<ProxyError>, text: TextField)

  /**
   * What awaiting the request gives `sendMessage`: a rejection (a network
   * failure in `fetch`, or a failure reading the body of a non-ok response
   * with `response.text()`), carrying the rejection's message, or a response.
   */
  datatype FetchOutcome = Rejected(reason: string) | Received(response: ProxyResponse)

  /** `response.ok`: a status in the range 200-299. */
  predicate IsOk(r: ProxyResponse) {
    200 <= r.status <= 299
  }

  /** What `sendMessage` throws: a rejection it passes on, or one of its own three errors. */
  datatype SendError =
    | NetworkError(reason: string)
    | RequestFailed(statusText: string, status: nat)
    | ApiError(message: string)
    | InvalidFormat

  /** The `message` of the thrown `Error`. */
  function ErrorMessage(e: SendError): (m: string)
    ensures !e.NetworkError? ==> m != ""
    ensures e.NetworkError? ==> m == e.reason
    ensures e.ApiError? ==> m == "API Error: " + e.message
  {
    match e
    case NetworkError(reason) => reason
    case RequestFailed(statusText, status) =>
      "Request failed: " + statusText + " (Status: " + JsText.NatToString(status) + ")"
    case ApiError(message) => "API Error: " + message
    case InvalidFormat => INVALID_FORMAT_MESSAGE
  }

  /**
   * The request body `sendMessage` builds: the current history followed by the
   * new user turn, leaving the history itself as it was.
   */
  function BuildRequest(url: string, history: seq<Content>, message: string): (req: ProxyRequest)
    ensures req.url == url
    ensures |req.contents| == |history| + 1
    ensures req.contents[..|history|] == history
    ensures req.contents[|history|] == Turn(User, message)
  {
    ProxyRequest(url, history + [Turn(User, message)])
  }

  /**
   * How `sendMessage` reads the outcome of its request. A rejection is passed
   * on as it is. Otherwise the checks run in a fixed order: a non-ok status
   * wins over everything, then a truthy `error` member, then a `text` that is
   * not a string; only an answer passing all three is a reply, and the reply
   * is its `text`.
   */
  function Classify(f: FetchOutcome): (res: Result<string, SendError>)
    ensures res.Success? <==>
      f.Received? && IsOk(f.response) && f.response.error.None? && f.response.text.TextString?
    ensures res.Success? ==> res.value == f.response.text.value
    ensures f.Rejected? ==> res == Failure(NetworkError(f.reason))
    ensures f.Received? && !IsOk(f.response) ==>
      res == Failure(RequestFailed(f.response.statusText, f.response.status))
    ensures f.Received? && IsOk(f.response) && f.response.error.Some? ==>
      res == Failure(ApiError(f.response.error.value.message))
    ensures f.Received? && IsOk(f.response) && f.response.error.None? && f.response.text.TextNotString? ==>
      res == Failure(InvalidFormat)
  {
    match f
    case Rejected(reason) => Failure(NetworkError(reason))
    case Received(r) =>
      if !IsOk(r) then
        Failure(RequestFailed(r.statusText, r.status))
      else if r.error.Some? then
        Failure(ApiError(r.error.value.message))
      else if r.text.TextNotString? then
        Failure(InvalidFormat)
      else
        Success(r.text.value)
  }

  /** One successful round trip: what the user sent and what the model replied. */
  datatype Exchange = Exchange(message: string, reply: string)

  /** The history a sequence of successful exchanges leaves behind. */
  function Transcript(es: seq<Exchange>): (h: seq<Content>)
    ensures |h| == 2 * |es|
  {
    if es == [] then []
    else
      var last := es[|es| - 1];
      Transcript(es[..|es| - 1]) + [Turn(User, last.message), Turn(Model, last.reply)]
  }

  /** The i-th exchange sits at positions 2i (user) and 2i+1 (model): call order is kept. */
  lemma {:induction false} TranscriptAt(es: seq<Exchange>, i: nat)
    requires i < |es|
    ensures |Transcript(es)| == 2 * |es|
    ensures Transcript(es)[2 * i] == Turn(User, es[i].message)
    ensures Transcript(es)[2 * i + 1] == Turn(Model, es[i].reply)
  {
    if i < |es| - 1 {
      TranscriptAt(es[..|es| - 1], i);
      assert es[..|es| - 1][i] == es[i];
    }
  }

  /** The history alternates user, model, user, model, ... */
  lemma {:induction false} TranscriptAlternates(es: seq<Exchange>)
    ensures forall k :: 0 <= k < |Transcript(es)| ==>
      Transcript(es)[k].role == if k % 2 == 0 then User else Model
  {
    forall k | 0 <= k < |Transcript(es)|
      ensures Transcript(es)[k].role == if k % 2 == 0 then User else Model
    {
      TranscriptAt(es, k / 2);
    }
  }

  /** A session bound to one model and one proxy URL (`ClientChatSession`). */
  class ClientChatSession {
    const model: string
    const proxyUrl: string
    var history: seq<Content>
    /** The successful exchanges so far, oldest first. */
    ghost var exchanges: seq<Exchange>

    ghost predicate Valid()
      reads this
    {
      history == Transcript(exchanges)
    }

    constructor (proxyUrl: string, model: string)
      ensures this.proxyUrl == proxyUrl && this.model == model
      ensures history == [] && exchanges == [] && Valid()
    {
      this.proxyUrl := proxyUrl;
      this.model := model;
      history := [];
      exchanges := [];
    }

    /**
     * `sendMessage`: posts `history ++ [user turn]` through `fetch` and
     * classifies the answer. Only a reply extends the history, by the user
     * turn and the model turn, in that order; every error leaves it as it was.
     */
    method SendMessage(message: string, fetch: ProxyRequest -> FetchOutcome)
      returns (result: Result<string, SendError>)
      requires Valid()
      modifies this
      ensures Valid()
      ensures result == Classify(fetch(BuildRequest(proxyUrl, old(history), message)))
      ensures result.Success? ==>
        history == old(history) + [Turn(User, message), Turn(Model, result.value)] &&
        exchanges == old(exchanges) + [Exchange(message, result.value)]
      ensures result.Failure? ==> history == old(history) && exchanges == old(exchanges)
    {
      var request := BuildRequest(proxyUrl, history, message);
      var outcome := fetch(request);
      if outcome.Rejected? {
        return Failure(NetworkError(outcome.reason));
      }
      var response := outcome.response;
      if !IsOk(response) {
        return Failure(RequestFailed(response.statusText, response.status));
      }
      if response.error.Some? {
        return Failure(ApiError(response.error.value.message));
      }
      if response.text.TextNotString? {
        return Failure(InvalidFormat);
      }
      var reply := response.text.value;
      history := history + [Turn(User, message)];
      history := history + [Turn(Model, reply)];
      exchanges := exchanges + [Exchange(message, reply)];
      return Success(reply);
    }
  }

  /**
   * `createChatSession`: fails with the configuration message, before any
   * request can be made, while the proxy URL is the placeholder; otherwise a
   * new session for `model` with an empty history.
   */
  method CreateChatSession(proxyUrl: string, model: string) returns (r: Result<ClientChatSession, string>)
    ensures r.Failure? <==> proxyUrl == PROXY_URL_PLACEHOLDER
    ensures r.Failure? ==> r.error == NOT_CONFIGURED_MESSAGE
    ensures r.Success? ==>
      fresh(r.value) && r.value.Valid() &&
      r.value.model == model && r.value.proxyUrl == proxyUrl &&
      r.value.history == [] && r.value.exchanges == []
  {
    if proxyUrl == PROXY_URL_PLACEHOLDER {
      return Failure(NOT_CONFIGURED_MESSAGE);
    }
    var session := new ClientChatSession(proxyUrl, model);
    return Success(session);
  }

  /** The URL the source ships with passes the configuration guard. */
  lemma ShippedProxyUrlIsConfigured()
    ensures GAS_PROXY_URL != PROXY_URL_PLACEHOLDER
  {
  }
}
