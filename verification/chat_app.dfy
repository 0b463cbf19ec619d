/**
 * The transcript reconciler of App.tsx: the session-initialisation effect and
 * `handleSendMessage`, which guards a submit, appends the user message and an
 * empty Gemini placeholder in one update, folds each streamed chunk into the
 * placeholder, and on an error drops the last message and reports the error.
 */
module ChatApp {
  import opened Wrappers
  import opened Types
  import JsText
  import GeminiService

  const NOT_INITIALIZED_MESSAGE: string := "Chat session is not initialized."
  const INIT_FAILED_MESSAGE: string := "Failed to initialize Gemini Chat. Please check your API key."
  const FETCH_FAILED_MESSAGE: string := "An error occurred while fetching the response."

  /** `message || fallback`: an empty message is falsy and gives way to the fallback. */
  function OrDefault(message: string, fallback: string): string {
    if message == "" then fallback else message
  }

  /** `!userInput.trim()`. */
  predicate IsBlank(input: string) {
    JsText.Trim(input) == ""
  }

  /**
   * A streamed reply as the handler sees it: the chunks that arrive, in order,
   * and then, when `failure` is present, the error thrown with that message
   * (a failure with no chunks is `sendMessageStream` itself throwing).
   */
  datatype StreamRun = StreamRun(chunks: seq<string>, failure: Option<string>)

  /** The text of a complete stream. */
  function Concat(chunks: seq<string>): string {
    if chunks == [] then "" else Concat(chunks[..|chunks| - 1]) + chunks[|chunks| - 1]
  }

  lemma {:induction false} ConcatAppend(a: seq<string>, b: seq<string>)
    ensures Concat(a + b) == Concat(a) + Concat(b)
  {
    if b != [] {
      ConcatAppend(a, b[..|b| - 1]);
      assert (a + b)[..|a + b| - 1] == a + b[..|b| - 1];
    } else {
      assert a + b == a;
    }
  }

  /**
   * Streaming only ever extends the placeholder: after the first i chunks its
   * text is a prefix of the complete reply, and the rest is the text of the
   * remaining chunks.
   */
  lemma StreamedTextIsPrefix(chunks: seq<string>, i: nat)
    requires i <= |chunks|
    ensures Concat(chunks) == Concat(chunks[..i]) + Concat(chunks[i..])
    ensures Concat(chunks[..i]) <= Concat(chunks)
  {
    ConcatAppend(chunks[..i], chunks[i..]);
    assert chunks[..i] + chunks[i..] == chunks;
  }

  predicate HasId(msgs: seq<Message>, id: string) {
    exists j :: 0 <= j < |msgs| && msgs[j].id == id
  }

  /**
   * One chunk's update, `prev.map(msg => msg.id === id ? {...msg, text: msg.text + chunk} : msg)`:
   * every message keeps its place, id and sender; exactly those with id `id`
   * get `chunk` appended to their text.
   */
  function ApplyChunk(msgs: seq<Message>, id: string, chunk: string): (r: seq<Message>)
    ensures |r| == |msgs|
    ensures forall j :: 0 <= j < |msgs| ==> r[j].id == msgs[j].id && r[j].sender == msgs[j].sender
    ensures forall j :: 0 <= j < |msgs| ==>
      r[j].text == if msgs[j].id == id then msgs[j].text + chunk else msgs[j].text
  {
    seq(|msgs|, j requires 0 <= j < |msgs| =>
      if msgs[j].id == id then msgs[j].(text := msgs[j].text + chunk) else msgs[j])
  }

  /** The transcript after the chunks have been applied one by one, in order. */
  function FoldChunks(msgs: seq<Message>, id: string, chunks: seq<string>): seq<Message> {
    if chunks == [] then msgs
    else ApplyChunk(FoldChunks(msgs, id, chunks[..|chunks| - 1]), id, chunks[|chunks| - 1])
  }

  /**
   * Folding chunks F1..Fk grows the text of a message carrying `id` to old
   * text + F1 + ... + Fk and keeps its position, id and sender.
   */
  lemma {:induction false} FoldChunksExtends(msgs: seq<Message>, id: string, chunks: seq<string>, p: nat)
    requires p < |msgs| && msgs[p].id == id
    ensures |FoldChunks(msgs, id, chunks)| == |msgs|
    ensures FoldChunks(msgs, id, chunks)[p].id == id
    ensures FoldChunks(msgs, id, chunks)[p].sender == msgs[p].sender
    ensures FoldChunks(msgs, id, chunks)[p].text == msgs[p].text + Concat(chunks)
  {
    if chunks != [] {
      var init := chunks[..|chunks| - 1];
      var last := chunks[|chunks| - 1];
      FoldChunksExtends(msgs, id, init, p);
      var before := FoldChunks(msgs, id, init);
      assert FoldChunks(msgs, id, chunks) == ApplyChunk(before, id, last);
      assert Concat(chunks) == Concat(init) + last;
      assert (msgs[p].text + Concat(init)) + last == msgs[p].text + Concat(chunks);
    }
  }

  /** Folding chunks into `id` leaves every message with another id as it was. */
  lemma {:induction false} FoldChunksPreserves(msgs: seq<Message>, id: string, chunks: seq<string>, j: nat)
    requires j < |msgs| && msgs[j].id != id
    ensures |FoldChunks(msgs, id, chunks)| == |msgs|
    ensures FoldChunks(msgs, id, chunks)[j] == msgs[j]
  {
    if chunks != [] {
      var init := chunks[..|chunks| - 1];
      FoldChunksPreserves(msgs, id, init, j);
      ApplyChunkAt(FoldChunks(msgs, id, init), id, chunks[|chunks| - 1], j);
    }
  }

  /** ApplyChunk at one position, as a whole message. */
  lemma ApplyChunkAt(msgs: seq<Message>, id: string, chunk: string, j: nat)
    requires j < |msgs|
    ensures |ApplyChunk(msgs, id, chunk)| == |msgs|
    ensures ApplyChunk(msgs, id, chunk)[j] ==
      if msgs[j].id == id then msgs[j].(text := msgs[j].text + chunk) else msgs[j]
  {
  }

  /**
   * Streaming into a fresh placeholder that ends the transcript: after chunks
   * F1..Fk the placeholder's text is F1 + ... + Fk and everything before it,
   * the user message included, is untouched.
   */
  lemma {:induction false} PendingTurnSettles(prev: seq<Message>, user: Message, geminiId: string, chunks: seq<string>)
    requires !HasId(prev, geminiId) && user.id != geminiId
    ensures FoldChunks(prev + [user, Message(geminiId, Gemini, "")], geminiId, chunks) ==
      prev + [user, Message(geminiId, Gemini, Concat(chunks))]
  {
    var pending := prev + [user, Message(geminiId, Gemini, "")];
    var p := |prev| + 1;
    var r := FoldChunks(pending, geminiId, chunks);
    var expected := prev + [user, Message(geminiId, Gemini, Concat(chunks))];
    FoldChunksExtends(pending, geminiId, chunks, p);
    forall j | 0 <= j < |r| ensures r[j] == expected[j] {
      if j < |prev| {
        assert pending[j] == prev[j];
        FoldChunksPreserves(pending, geminiId, chunks, j);
      } else if j == |prev| {
        FoldChunksPreserves(pending, geminiId, chunks, j);
      }
    }
  }

  /** The UI state `handleSendMessage` owns. */
  class App {
    var messages: seq<Message>
    var isLoading: bool
    var error: Option<string>
    var chat: GeminiService.ClientChatSession?

    /** The initial render: nothing shown, nothing loading, no error, no session. */
    constructor ()
      ensures messages == [] && !isLoading && error == None && chat == null
    {
      messages := [];
      isLoading := false;
      error := None;
      chat := null;
    }

    /**
     * The mount effect: try to create the session; when creation throws, show
     * its message (or the default text) and leave `chat` as it was.
     */
    method InitChat(proxyUrl: string, model: string)
      modifies this
      ensures messages == old(messages) && isLoading == old(isLoading)
      ensures proxyUrl == GeminiService.PROXY_URL_PLACEHOLDER ==>
        chat == old(chat) &&
        error == Some(OrDefault(GeminiService.NOT_CONFIGURED_MESSAGE, INIT_FAILED_MESSAGE))
      ensures proxyUrl != GeminiService.PROXY_URL_PLACEHOLDER ==>
        chat != null && fresh(chat) && chat.Valid() && chat.model == model && chat.history == [] &&
        error == old(error)
    {
      var created := GeminiService.CreateChatSession(proxyUrl, model);
      match created
      case Success(session) =>
        chat := session;
      case Failure(message) =>
        error := Some(OrDefault(message, INIT_FAILED_MESSAGE));
    }

    /**
     * The optimistic update of an accepted submit: loading on, error cleared,
     * and the user message and the empty placeholder appended together.
     */
    method BeginTurn(userInput: string, userId: string, geminiId: string)
      modifies this
      ensures chat == old(chat) && isLoading && error == None
      ensures messages == old(messages) + [Message(userId, User, userInput), Message(geminiId, Gemini, "")]
    {
      isLoading := true;
      error := None;
      messages := messages + [Message(userId, User, userInput), Message(geminiId, Gemini, "")];
    }

    /** One streamed chunk: only the message with the placeholder's id changes. */
    method ReceiveChunk(geminiId: string, chunk: string)
      modifies this`messages
      ensures messages == ApplyChunk(old(messages), geminiId, chunk)
    {
      messages := ApplyChunk(messages, geminiId, chunk);
    }

    /** The `for await` loop: the chunks are applied one at a time, in arrival order. */
    method ReceiveStream(geminiId: string, chunks: seq<string>)
      modifies this`messages
      ensures messages == FoldChunks(old(messages), geminiId, chunks)
    {
      ghost var start := messages;
      var i := 0;
      while i < |chunks|
        invariant 0 <= i <= |chunks|
        invariant messages == FoldChunks(start, geminiId, chunks[..i])
      {
        ReceiveChunk(geminiId, chunks[i]);
        assert chunks[..i + 1][..i] == chunks[..i];
        i := i + 1;
      }
      assert chunks[..i] == chunks;
    }

    /** The catch block: report the error and drop the last message (`slice(0, -1)`). */
    method RollBack(message: string)
      modifies this`messages, this`error
      ensures error == Some(OrDefault(message, FETCH_FAILED_MESSAGE))
      ensures messages == if old(messages) == [] then [] else old(messages)[..|old(messages)| - 1]
    {
      error := Some(OrDefault(message, FETCH_FAILED_MESSAGE));
      if messages != [] {
        messages := messages[..|messages| - 1];
      }
    }

    /**
     * The accepted path of `handleSendMessage`: the optimistic update, the
     * stream, the rollback on an error, and the `finally` that clears loading.
     */
    method RunTurn(userInput: string, userId: string, geminiId: string, stream: StreamRun)
      requires userId != geminiId && !HasId(messages, userId) && !HasId(messages, geminiId)
      modifies this
      ensures chat == old(chat) && !isLoading
      ensures stream.failure.None? ==>
        error == None &&
        messages == old(messages) +
          [Message(userId, User, userInput), Message(geminiId, Gemini, Concat(stream.chunks))]
      ensures stream.failure.Some? ==>
        error == Some(OrDefault(stream.failure.value, FETCH_FAILED_MESSAGE)) &&
        messages == old(messages) + [Message(userId, User, userInput)]
    {
      ghost var prev := messages;
      BeginTurn(userInput, userId, geminiId);
      ReceiveStream(geminiId, stream.chunks);
      PendingTurnSettles(prev, Message(userId, User, userInput), geminiId, stream.chunks);
      if stream.failure.Some? {
        RollBack(stream.failure.value);
      }
      isLoading := false;
    }

    /**
     * `handleSendMessage(userInput)` run against the streamed reply `stream`,
     * with `userId` and `geminiId` standing for the two fresh UUIDs it draws.
     */
    method HandleSendMessage(userInput: string, userId: string, geminiId: string, stream: StreamRun)
      requires userId != geminiId && !HasId(messages, userId) && !HasId(messages, geminiId)
      modifies this
      ensures chat == old(chat)
      // No session: report it and change nothing else.
      ensures old(chat) == null ==>
        messages == old(messages) && isLoading == old(isLoading) &&
        error == Some(NOT_INITIALIZED_MESSAGE)
      // A turn in flight, or blank input: a no-op.
      ensures old(chat) != null && (old(isLoading) || IsBlank(userInput)) ==>
        messages == old(messages) && isLoading == old(isLoading) && error == old(error)
      // Accepted and the stream completes: the placeholder holds the whole reply.
      ensures old(chat) != null && !old(isLoading) && !IsBlank(userInput) && stream.failure.None? ==>
        !isLoading && error == None &&
        messages == old(messages) +
          [Message(userId, User, userInput), Message(geminiId, Gemini, Concat(stream.chunks))]
      // Accepted and the stream fails: the placeholder, with any partial text, is dropped.
      ensures old(chat) != null && !old(isLoading) && !IsBlank(userInput) && stream.failure.Some? ==>
        !isLoading && error == Some(OrDefault(stream.failure.value, FETCH_FAILED_MESSAGE)) &&
        messages == old(messages) + [Message(userId, User, userInput)]
    {
      if chat == null {
        error := Some(NOT_INITIALIZED_MESSAGE);
        return;
      }
      if isLoading || IsBlank(userInput) {
        return;
      }
      RunTurn(userInput, userId, geminiId, stream);
    }
  }
}
