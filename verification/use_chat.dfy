/** The `useChat` hook: the chat screen's state, driven by the SSE client's
    handler invocations. Streamed chunks accumulate in a buffer shown as the
    typing text; a completion commits the full reply as one AI message.

    `View` is the hook's state as a value and the functions below are the
    state updates each handler makes; `ChatHook` is the mutable hook whose
    methods are proved to follow them. The three handlers are registered
    once, on mount, so they see the session id of the first render: that
    value is `closure` below (`closureSession` in the class). */
module UseChat {
  import opened Wrappers
  import opened Values
  import Text
  import Sse = SseService

  /** The characters `String.prototype.trim` removes: the ECMAScript
      white space and line terminators. */
  predicate JsIsSpace(c: char) {
    var n := c as int;
    0x09 <= n <= 0x0D || n == 0x20 || n == 0xA0 || n == 0x1680 || 0x2000 <= n <= 0x200A ||
    n == 0x2028 || n == 0x2029 || n == 0x202F || n == 0x205F || n == 0x3000 || n == 0xFEFF
  }

  /** `!s.trim()` */
  predicate JsBlank(s: string) {
    forall i :: 0 <= i < |s| ==> JsIsSpace(s[i])
  }

  /** The index of the first character at or after `lo` that is not
      white space (`|s|` if there is none). */
  function TrimStartIndex(s: string, lo: nat): (k: nat)
    requires lo <= |s|
    ensures lo <= k <= |s|
    ensures forall i :: lo <= i < k ==> JsIsSpace(s[i])
    ensures k == |s| || !JsIsSpace(s[k])
    decreases |s| - lo
  {
    if lo < |s| && JsIsSpace(s[lo]) then TrimStartIndex(s, lo + 1) else lo
  }

  /** The end of `s[lo..hi]` once its trailing white space is dropped. */
  function TrimEndIndex(s: string, lo: nat, hi: nat): (k: nat)
    requires lo <= hi <= |s|
    ensures lo <= k <= hi
    ensures forall i :: k <= i < hi ==> JsIsSpace(s[i])
    ensures k == lo || !JsIsSpace(s[k - 1])
    decreases hi
  {
    if lo < hi && JsIsSpace(s[hi - 1]) then TrimEndIndex(s, lo, hi - 1) else hi
  }

  /** `s.trim()` */
  function JsTrim(s: string): (r: string)
    ensures |r| <= |s|
    ensures r == [] || (!JsIsSpace(r[0]) && !JsIsSpace(r[|r| - 1]))
  {
    var a := TrimStartIndex(s, 0);
    var b := TrimEndIndex(s, a, |s|);
    assert a < b ==> s[a..b][0] == s[a] && s[a..b][b - a - 1] == s[b - 1];
    s[a..b]
  }

  /** What `trim` promises: a slice of `s`, with no white space at either
      end, and empty exactly when `s` is blank. */
  lemma JsTrimSpec(s: string)
    ensures var a := TrimStartIndex(s, 0);
            a + |JsTrim(s)| <= |s| && JsTrim(s) == s[a..a + |JsTrim(s)|]
    ensures JsTrim(s) == [] || (!JsIsSpace(JsTrim(s)[0]) && !JsIsSpace(JsTrim(s)[|JsTrim(s)| - 1]))
    ensures JsTrim(s) == [] <==> JsBlank(s)
  {
    var a := TrimStartIndex(s, 0);
    var b := TrimEndIndex(s, a, |s|);
    var r := s[a..b];
    if r != [] {
      assert r[0] == s[a] && r[|r| - 1] == s[b - 1];
    } else {
      forall i | 0 <= i < |s| ensures JsIsSpace(s[i]) {
      }
    }
  }

  /** The hook's state: its seven `useState` values, the stream buffer
      (`currentStreamingMessageRef`) and whether the typing timer
      reference is set. */
  datatype View = View(messages: seq<Sse.FrontMessage>, currentSession: Option<string>, isLoading: bool,
                       isConnected: bool, error: Option<string>, isTyping: bool, typingMessage: string,
                       buffer: string, typingTimer: bool)

  /** A session id JavaScript treats as truthy. */
  predicate Present(id: Option<string>) {
    id.Some? && id.value != []
  }

  /** The first render: `options.sessionId || null`, everything else empty. */
  function Initial(sessionId: Option<string>): (v: View)
    ensures v.messages == [] && v.buffer == [] && v.typingMessage == []
    ensures v.currentSession == if Present(sessionId) then sessionId else None
    ensures !v.isLoading && !v.isConnected && !v.isTyping && v.error == None && !v.typingTimer
  {
    View([], if Present(sessionId) then sessionId else None, false, false, None, false, "", "", false)
  }

  function UserMessage(content: string, session: Option<string>, now: int, iso: string): Sse.FrontMessage {
    Sse.FrontMessage("user-" + Text.IntToString(now), Sse.Human, content, iso, map["session_id" := OptStr(session)])
  }

  function AiReply(content: string, session: Option<string>, now: int, iso: string): Sse.FrontMessage {
    Sse.FrontMessage("ai-" + Text.IntToString(now), Sse.Ai, content, iso,
                     map["streaming" := Bool(true), "session_id" := OptStr(session)])
  }

  /** `sendMessage`'s own updates, before it opens the stream: nothing for
      blank text; otherwise the trimmed text as a human message, loading on,
      the error cleared, and the stream buffer and typing text emptied. */
  function Sent(v: View, text: string, now: int, iso: string): (r: View)
    ensures JsBlank(text) ==> r == v
    ensures !JsBlank(text) ==>
              r.messages == v.messages + [UserMessage(JsTrim(text), v.currentSession, now, iso)] &&
              r.isLoading && r.error == None && r.buffer == [] && r.isTyping && r.typingMessage == [] &&
              r.currentSession == v.currentSession && r.isConnected == v.isConnected &&
              r.typingTimer == v.typingTimer
  {
    if JsBlank(text) then v
    else v.(isLoading := true, error := None,
            messages := v.messages + [UserMessage(JsTrim(text), v.currentSession, now, iso)],
            buffer := "", isTyping := true, typingMessage := "")
  }

  /** A send whose connection is built reports "disconnected" then
      "connecting" to the hook, which leaves it showing the sent message,
      loading and typing, and not connected. */
  lemma SendThenConnect(v: View, text: string, closure: Option<string>, now: int, iso: string)
    requires !JsBlank(text)
    ensures var r := NotifiedAll(Sent(v, text, now, iso), [Sse.StatusNotice(Sse.Disconnected), Sse.StatusNotice(Sse.Connecting)],
                                 closure, now, iso);
            r == Sent(v, text, now, iso).(isConnected := false)
  {
    var ns := [Sse.StatusNotice(Sse.Disconnected), Sse.StatusNotice(Sse.Connecting)];
    assert ns[..1][..0] == [];
  }

  /** `handleAIChunk`: the chunk is appended to the buffer, which becomes
      the typing text, and the typing timer is (re)started. */
  function Chunked(v: View, chunk: string): (r: View)
    ensures r.buffer == v.buffer + chunk && r.typingMessage == r.buffer && r.isTyping && r.typingTimer
    ensures r.messages == v.messages && r.currentSession == v.currentSession && r.isLoading == v.isLoading
    ensures r.error == v.error && r.isConnected == v.isConnected
  {
    v.(buffer := v.buffer + chunk, typingMessage := v.buffer + chunk, isTyping := true, typingTimer := true)
  }

  /** `handleStreamCompletion` as the handlers registered on mount see it:
      typing and loading off, the timer cleared, one AI message if the
      response is not blank, the session adopted when it is present and
      differs from the mount-time session, and the buffer emptied. */
  function Completed(v: View, response: string, sessionId: Option<string>, closure: Option<string>,
                     now: int, iso: string): (r: View)
    ensures !r.isTyping && r.typingMessage == [] && !r.isLoading && !r.typingTimer && r.buffer == []
    ensures JsBlank(response) ==> r.messages == v.messages
    ensures !JsBlank(response) ==> r.messages == v.messages + [AiReply(response, sessionId, now, iso)]
    ensures r.currentSession != v.currentSession ==> Present(r.currentSession) && r.currentSession == sessionId
    ensures Present(sessionId) && sessionId != closure ==> r.currentSession == sessionId
    ensures r.error == v.error && r.isConnected == v.isConnected
  {
    v.(isTyping := false, typingMessage := "", isLoading := false, typingTimer := false,
       messages := if JsBlank(response) then v.messages else v.messages + [AiReply(response, sessionId, now, iso)],
       currentSession := if Present(sessionId) && sessionId != closure then sessionId else v.currentSession,
       buffer := "")
  }

  /** The error handler: the message shown, loading and typing off. */
  function Failed(v: View, e: Sse.SseConnectionError): (r: View)
    ensures r.error == Some(e.message) && !r.isLoading && !r.isTyping && r.typingMessage == []
    ensures r.messages == v.messages && r.buffer == v.buffer && r.currentSession == v.currentSession
  {
    v.(error := Some(e.message), isLoading := false, isTyping := false, typingMessage := "")
  }

  /** The connection handler: connected exactly when the status says so;
      connecting clears the error, an error status stops loading. */
  function StatusChanged(v: View, status: Sse.ConnectionStatus): (r: View)
    ensures r.isConnected <==> status == Sse.Connected
    ensures r.error == if status == Sse.Connected then None else v.error
    ensures r.isLoading == if status == Sse.Errored then false else v.isLoading
    ensures r.messages == v.messages && r.buffer == v.buffer && r.isTyping == v.isTyping
  {
    var w := v.(isConnected := status == Sse.Connected);
    if status == Sse.Connected then w.(error := None)
    else if status == Sse.Errored then w.(isLoading := false)
    else w
  }

  /** How the message handler tells a chunk from a completion. */
  predicate IsChunk(m: Sse.FrontMessage) {
    m.msgType == Sse.Ai && "chunk_id" in m.metadata
  }

  predicate IsCompletion(m: Sse.FrontMessage) {
    m.msgType == Sse.System && Get(m.metadata, "type") == Str("completion")
  }

  /** `metadata.complete_response` and `metadata.session_id` as the
      completion handler reads them; a value that is not text counts as
      empty text and as no session respectively. */
  function CompleteResponse(m: Sse.FrontMessage): string {
    match Get(m.metadata, "complete_response")
    case Str(s) => s
    case _ => ""
  }

  function SessionOf(m: Sse.FrontMessage): Option<string> {
    match Get(m.metadata, "session_id")
    case Str(s) => Some(s)
    case _ => None
  }

  /** The message handler. */
  function Routed(v: View, m: Sse.FrontMessage, closure: Option<string>, now: int, iso: string): (r: View)
    ensures IsChunk(m) ==> r == Chunked(v, m.content)
    ensures !IsChunk(m) && IsCompletion(m) ==>
              r == Completed(v, CompleteResponse(m), SessionOf(m), closure, now, iso)
    ensures !IsChunk(m) && !IsCompletion(m) ==> r == v.(messages := v.messages + [m])
  {
    if IsChunk(m) then Chunked(v, m.content)
    else if IsCompletion(m) then Completed(v, CompleteResponse(m), SessionOf(m), closure, now, iso)
    else v.(messages := v.messages + [m])
  }

  function Notified(v: View, n: Sse.Notice, closure: Option<string>, now: int, iso: string): View {
    match n
    case MessageNotice(m) => Routed(v, m, closure, now, iso)
    case ErrorNotice(e) => Failed(v, e)
    case StatusNotice(s) => StatusChanged(v, s)
  }

  /** The handler invocations applied in order. */
  function NotifiedAll(v: View, ns: seq<Sse.Notice>, closure: Option<string>, now: int, iso: string): View
    decreases |ns|
  {
    if ns == [] then v else Notified(NotifiedAll(v, ns[..|ns| - 1], closure, now, iso), ns[|ns| - 1], closure, now, iso)
  }

  lemma {:induction false} NotifiedAllAppend(v: View, a: seq<Sse.Notice>, b: seq<Sse.Notice>,
                                             closure: Option<string>, now: int, iso: string)
    ensures NotifiedAll(v, a + b, closure, now, iso) == NotifiedAll(NotifiedAll(v, a, closure, now, iso), b, closure, now, iso)
    decreases |b|
  {
    if b == [] {
      assert a + b == a;
    } else {
      assert (a + b)[..|a + b| - 1] == a + b[..|b| - 1];
      NotifiedAllAppend(v, a, b[..|b| - 1], closure, now, iso);
    }
  }

  /** The message the client makes of each server event reaches the
      intended branch of the message handler: chunks are chunks,
      completions complete with the server's full text and session, and
      the `stream_done` signal is kept as an ordinary message. */
  lemma ChunkRoutes(v: View, content: string, chunkId: int, isFinal: bool, sessionId: string,
                    closure: Option<string>, now: int, iso: string)
    ensures Routed(v, Sse.ChunkMessage(content, chunkId, isFinal, sessionId, iso), closure, now, iso)
            == Chunked(v, content)
  {
  }

  lemma CompletionRoutes(v: View, totalChunks: int, full: string, sessionId: string,
                         closure: Option<string>, now: int, iso: string)
    ensures Routed(v, Sse.CompletionMessage(totalChunks, full, sessionId, now, iso), closure, now, iso)
            == Completed(v, full, Some(sessionId), closure, now, iso)
  {
    var c := Sse.CompletionMessage(totalChunks, full, sessionId, now, iso);
    assert !IsChunk(c) && IsCompletion(c);
  }

  lemma DoneRoutes(v: View, closure: Option<string>, now: int, iso: string)
    ensures Routed(v, Sse.StreamDoneMessage(now, iso), closure, now, iso)
            == v.(messages := v.messages + [Sse.StreamDoneMessage(now, iso)])
  {
    var d := Sse.StreamDoneMessage(now, iso);
    assert Get(d.metadata, "type") == Str("stream_done");
  }

  function Concat(chunks: seq<string>): string
    decreases |chunks|
  {
    if chunks == [] then "" else Concat(chunks[..|chunks| - 1]) + chunks[|chunks| - 1]
  }

  /** Streamed chunks accumulate: after any number of them the buffer and
      the typing text are the old buffer followed by all chunks in order,
      and nothing has been added to the message list. */
  lemma {:induction false} ChunksAccumulate(v: View, chunks: seq<string>, sessionId: string,
                                            closure: Option<string>, now: int, iso: string)
    ensures var r := NotifiedAll(v, Sse.ChunkCalls(chunks, sessionId, iso), closure, now, iso);
            r.buffer == v.buffer + Concat(chunks) && r.messages == v.messages &&
            r.currentSession == v.currentSession && r.isLoading == v.isLoading && r.error == v.error
    ensures chunks != [] ==>
            var r := NotifiedAll(v, Sse.ChunkCalls(chunks, sessionId, iso), closure, now, iso);
            r.typingMessage == r.buffer && r.isTyping && r.typingTimer
    decreases |chunks|
  {
    if chunks != [] {
      var init := chunks[..|chunks| - 1];
      var last := chunks[|chunks| - 1];
      ChunksAccumulate(v, init, sessionId, closure, now, iso);
      ChunkStep(v, chunks, sessionId, closure, now, iso);
      assert v.buffer + Concat(chunks) == (v.buffer + Concat(init)) + last;
    }
  }

  /** One more chunk is one more `handleAIChunk`. */
  lemma ChunkStep(v: View, chunks: seq<string>, sessionId: string, closure: Option<string>, now: int, iso: string)
    requires chunks != []
    ensures NotifiedAll(v, Sse.ChunkCalls(chunks, sessionId, iso), closure, now, iso)
            == Chunked(NotifiedAll(v, Sse.ChunkCalls(chunks[..|chunks| - 1], sessionId, iso), closure, now, iso),
                       chunks[|chunks| - 1])
  {
    var init := chunks[..|chunks| - 1];
    var last := chunks[|chunks| - 1];
    var ns := Sse.ChunkCalls(chunks, sessionId, iso);
    var m := Sse.ChunkMessage(last, |chunks|, false, sessionId, iso);
    assert ns == Sse.ChunkCalls(init, sessionId, iso) + [Sse.MessageNotice(m)];
    assert ns[..|ns| - 1] == Sse.ChunkCalls(init, sessionId, iso) && ns[|ns| - 1] == Sse.MessageNotice(m);
    var w := NotifiedAll(v, Sse.ChunkCalls(init, sessionId, iso), closure, now, iso);
    ChunkRoutes(w, last, |chunks|, false, sessionId, closure, now, iso);
  }

  /** The last three invocations of an exchange: completion, disconnected
      status, stream-done signal. */
  lemma {:induction false} ExchangeTailSettles(w: View, n: int, full: string, sessionId: string,
                                               closure: Option<string>, now: int, iso: string)
    ensures var tail := [Sse.MessageNotice(Sse.CompletionMessage(n, full, sessionId, now, iso)),
                         Sse.StatusNotice(Sse.Disconnected), Sse.MessageNotice(Sse.StreamDoneMessage(now, iso))];
            var r := NotifiedAll(w, tail, closure, now, iso);
            r.messages == w.messages + (if JsBlank(full) then [] else [AiReply(full, Some(sessionId), now, iso)])
                          + [Sse.StreamDoneMessage(now, iso)] &&
            r.buffer == [] && r.typingMessage == [] && !r.isTyping && !r.isLoading && !r.typingTimer &&
            !r.isConnected && r.error == w.error &&
            r.currentSession == (if Present(Some(sessionId)) && Some(sessionId) != closure then Some(sessionId)
                                 else w.currentSession)
  {
    var tail := [Sse.MessageNotice(Sse.CompletionMessage(n, full, sessionId, now, iso)),
                 Sse.StatusNotice(Sse.Disconnected), Sse.MessageNotice(Sse.StreamDoneMessage(now, iso))];
    assert tail[..2][..1] == tail[..1];
    assert tail[..1][..0] == [];
    CompletionRoutes(w, n, full, sessionId, closure, now, iso);
    var w1 := Completed(w, full, Some(sessionId), closure, now, iso);
    assert NotifiedAll(w, tail[..1], closure, now, iso) == w1;
    var w2 := StatusChanged(w1, Sse.Disconnected);
    assert NotifiedAll(w, tail[..2], closure, now, iso) == w2;
    DoneRoutes(w2, closure, now, iso);
  }

  /** After a whole answered message the hook is idle again: the reply is
      one AI message (when not blank) followed by the stream-done signal,
      the buffer is empty, nothing is typing or loading, the error is
      cleared and the session is the server's unless it equals the
      mount-time session. */
  lemma ExchangeSettles(v: View, chunks: seq<string>, full: string, sessionId: string,
                        closure: Option<string>, now: int, iso: string)
    ensures var r := NotifiedAll(v, Sse.ExchangeCalls(chunks, full, sessionId, now, iso), closure, now, iso);
            r.messages == v.messages + (if JsBlank(full) then [] else [AiReply(full, Some(sessionId), now, iso)])
                          + [Sse.StreamDoneMessage(now, iso)] &&
            r.buffer == [] && r.typingMessage == [] && !r.isTyping && !r.isLoading && !r.typingTimer &&
            !r.isConnected && r.error == None &&
            r.currentSession == (if Present(Some(sessionId)) && Some(sessionId) != closure then Some(sessionId)
                                 else v.currentSession)
  {
    var open := [Sse.StatusNotice(Sse.Connected)];
    var cs := Sse.ChunkCalls(chunks, sessionId, iso);
    var tail := [Sse.MessageNotice(Sse.CompletionMessage(|chunks|, full, sessionId, now, iso)),
                 Sse.StatusNotice(Sse.Disconnected), Sse.MessageNotice(Sse.StreamDoneMessage(now, iso))];
    assert Sse.ExchangeCalls(chunks, full, sessionId, now, iso) == (open + cs) + tail;
    NotifiedAllAppend(v, open + cs, tail, closure, now, iso);
    NotifiedAllAppend(v, open, cs, closure, now, iso);
    assert open[..0] == [];
    var w0 := StatusChanged(v, Sse.Connected);
    assert NotifiedAll(v, open, closure, now, iso) == w0;
    ChunksAccumulate(w0, chunks, sessionId, closure, now, iso);
    var w1 := NotifiedAll(w0, cs, closure, now, iso);
    ExchangeTailSettles(w1, |chunks|, full, sessionId, closure, now, iso);
  }

  /** One answered message end to end: the handler calls a registered
      client makes for the server's stream, delivered to the hook, leave it
      idle with the reply and the stream-done signal appended. */
  lemma AnsweredMessage(v: View, s: Sse.Service, chunks: seq<string>, full: string, sessionId: string,
                        userText: string, messageCount: int, encode: Sse.SseEvent -> string,
                        closure: Option<string>, now: int, iso: string)
    requires s.hasMessageHandler && s.hasConnectionHandler
    requires forall ev :: encode(ev) != "[DONE]"
    ensures var t := Sse.Run(s, Sse.StreamInputs(chunks, full, sessionId, userText, messageCount, encode, now, iso));
            |s.calls| <= |t.calls| &&
            var r := NotifiedAll(v, t.calls[|s.calls|..], closure, now, iso);
            r.messages == v.messages + (if JsBlank(full) then [] else [AiReply(full, Some(sessionId), now, iso)])
                          + [Sse.StreamDoneMessage(now, iso)] &&
            r.buffer == [] && !r.isTyping && !r.isLoading && !r.isConnected && r.error == None &&
            t.status == Sse.Disconnected && t.reconnectAttempts == 0
  {
    Sse.StreamProducesExchange(s, chunks, full, sessionId, userText, messageCount, encode, now, iso);
    var t := Sse.Run(s, Sse.StreamInputs(chunks, full, sessionId, userText, messageCount, encode, now, iso));
    assert t.calls[|s.calls|..] == Sse.ExchangeCalls(chunks, full, sessionId, now, iso);
    ExchangeSettles(v, chunks, full, sessionId, closure, now, iso);
  }

  /** `clearChat`: no messages, no error, nothing typing, an empty buffer
      and no typing timer; the session, loading and connection flags stay. */
  function ChatCleared(v: View): (r: View)
    ensures r.messages == [] && r.error == None && !r.isTyping && r.typingMessage == [] && r.buffer == []
    ensures !r.typingTimer && r.currentSession == v.currentSession && r.isLoading == v.isLoading
    ensures r.isConnected == v.isConnected
  {
    v.(messages := [], error := None, isTyping := false, typingMessage := "", buffer := "", typingTimer := false)
  }

  /** The five-second typing timer firing: a buffer with text is committed
      as if the stream had completed, under the mount-time session. */
  function TypingTimedOut(v: View, closure: Option<string>, now: int, iso: string): (r: View)
    ensures !(v.typingTimer && !JsBlank(v.buffer)) ==> r == v
    ensures v.typingTimer && !JsBlank(v.buffer) ==>
              r.messages == v.messages + [AiReply(v.buffer, closure, now, iso)] && r.buffer == [] && !r.isTyping
  {
    if v.typingTimer && !JsBlank(v.buffer) then Completed(v, v.buffer, closure, closure, now, iso) else v
  }

  /** `createNewSession` with the outcome of its POST request: the new
      session id, or the message of the error it raised. */
  function SessionCreated(v: View, outcome: Result<string, string>): (r: View)
    ensures !r.isLoading
    ensures outcome.Ok? ==> r.currentSession == Some(outcome.value) && r.messages == [] && r.error == None
    ensures outcome.Err? ==> r.error == Some(outcome.error) && r.messages == v.messages &&
                             r.currentSession == v.currentSession
  {
    var w := v.(isLoading := true, error := None);
    match outcome
    case Ok(id) => w.(currentSession := Some(id), messages := [], isLoading := false)
    case Err(m) => w.(error := Some(m), isLoading := false)
  }

  /** The start-up health check: `Some(ok)` for an answer, `None` when the
      request itself failed. */
  function HealthChecked(v: View, answer: Option<bool>): (r: View)
    ensures r.isConnected <==> answer == Some(true)
    ensures r.error == None <==> answer == Some(true)
    ensures r.messages == v.messages && r.isLoading == v.isLoading
  {
    match answer
    case Some(true) => v.(isConnected := true, error := None)
    case Some(false) => v.(error := Some("Backend nicht erreichbar"), isConnected := false)
    case None => v.(error := Some("Backend nicht erreichbar - ist der Server gestartet?"), isConnected := false)
  }

  class ChatHook {
    var messages: seq<Sse.FrontMessage>
    var currentSession: Option<string>
    var isLoading: bool
    var isConnected: bool
    var error: Option<string>
    var isTyping: bool
    var typingMessage: string
    var buffer: string
    var typingTimer: bool
    const closureSession: Option<string>
    const service: Sse.SseService

    function Snapshot(): View
      reads this
    {
      View(messages, currentSession, isLoading, isConnected, error, isTyping, typingMessage, buffer, typingTimer)
    }

    /** Mounting: the first render's state, a client of its own, and the
        three handlers registered on it. */
    constructor (sessionId: Option<string>, config: Option<Sse.PartialConfig>)
      ensures Snapshot() == Initial(sessionId) && closureSession == currentSession
      ensures fresh(service)
      ensures service.Snapshot() == Sse.Fresh(config).(hasMessageHandler := true, hasErrorHandler := true,
                                                       hasConnectionHandler := true)
    {
      messages := [];
      currentSession := if Present(sessionId) then sessionId else None;
      isLoading := false;
      isConnected := false;
      error := None;
      isTyping := false;
      typingMessage := "";
      buffer := "";
      typingTimer := false;
      closureSession := if Present(sessionId) then sessionId else None;
      service := new Sse.SseService(config);
      new;
      service.OnMessage();
      service.OnError();
      service.OnConnection();
    }

    method HandleAiChunk(chunk: string)
      modifies this
      ensures Snapshot() == Chunked(old(Snapshot()), chunk)
    {
      buffer := buffer + chunk;
      typingMessage := buffer;
      isTyping := true;
      typingTimer := true;
    }

    method HandleStreamCompletion(response: string, sessionId: Option<string>, now: int, iso: string)
      modifies this
      ensures Snapshot() == Completed(old(Snapshot()), response, sessionId, closureSession, now, iso)
    {
      isTyping := false;
      typingMessage := "";
      isLoading := false;
      if typingTimer {
        typingTimer := false;
      }
      if !JsBlank(response) {
        messages := messages + [AiReply(response, sessionId, now, iso)];
      }
      if Present(sessionId) && sessionId != closureSession {
        currentSession := sessionId;
      }
      buffer := "";
    }

    method OnServiceMessage(m: Sse.FrontMessage, now: int, iso: string)
      modifies this
      ensures Snapshot() == Routed(old(Snapshot()), m, closureSession, now, iso)
    {
      if IsChunk(m) {
        HandleAiChunk(m.content);
      } else if IsCompletion(m) {
        HandleStreamCompletion(CompleteResponse(m), SessionOf(m), now, iso);
      } else {
        messages := messages + [m];
      }
    }

    method OnServiceError(e: Sse.SseConnectionError)
      modifies this
      ensures Snapshot() == Failed(old(Snapshot()), e)
    {
      error := Some(e.message);
      isLoading := false;
      isTyping := false;
      typingMessage := "";
    }

    method OnServiceStatus(status: Sse.ConnectionStatus)
      modifies this
      ensures Snapshot() == StatusChanged(old(Snapshot()), status)
    {
      isConnected := status == Sse.Connected;
      if status == Sse.Connected {
        error := None;
      } else if status == Sse.Errored {
        isLoading := false;
      }
    }

    /** The handlers invoked one after another, as the client calls them. */
    method Deliver(ns: seq<Sse.Notice>, now: int, iso: string)
      modifies this
      ensures Snapshot() == NotifiedAll(old(Snapshot()), ns, closureSession, now, iso)
    {
      var k := 0;
      while k < |ns|
        invariant 0 <= k <= |ns|
        invariant Snapshot() == NotifiedAll(old(Snapshot()), ns[..k], closureSession, now, iso)
      {
        assert ns[..k + 1][..k] == ns[..k];
        match ns[k] {
          case MessageNotice(m) => OnServiceMessage(m, now, iso);
          case ErrorNotice(e) => OnServiceError(e);
          case StatusNotice(s) => OnServiceStatus(s);
        }
        k := k + 1;
      }
      assert ns[..k] == ns;
    }

    /** The updates `sendMessage` makes before it connects. */
    method BeginSend(text: string, now: int, iso: string)
      requires !JsBlank(text)
      modifies this
      ensures Snapshot() == Sent(old(Snapshot()), text, now, iso)
    {
      isLoading := true;
      error := None;
      messages := messages + [UserMessage(JsTrim(text), currentSession, now, iso)];
      buffer := "";
      isTyping := true;
      typingMessage := "";
    }

    /** `sendMessage`: the hook's own updates, then the client connects and
        every handler call it makes along the way is delivered. */
    method SendMessage(text: string, failure: Option<string>, now: int, iso: string)
      modifies this, service
      ensures JsBlank(text) ==> Snapshot() == old(Snapshot()) && service.Snapshot() == old(service.Snapshot())
      ensures !JsBlank(text) ==>
                service.Snapshot() == Sse.AfterConnect(old(service.Snapshot()), JsTrim(text), old(currentSession), failure)
      ensures old(service.calls) <= service.calls
      ensures !JsBlank(text) ==>
                Snapshot() == NotifiedAll(Sent(old(Snapshot()), text, now, iso),
                                          service.calls[|old(service.calls)|..], closureSession, now, iso)
    {
      if JsBlank(text) {
        return;
      }
      BeginSend(text, now, iso);
      var before := service.calls;
      service.Connect(JsTrim(text), currentSession, failure);
      Deliver(service.calls[|before|..], now, iso);
    }

    /** The open stream reports that it is open. */
    method StreamOpened(now: int, iso: string)
      modifies this, service
      ensures service.Snapshot() == Sse.AfterOpen(old(service.Snapshot()))
      ensures old(service.calls) <= service.calls
      ensures Snapshot() == NotifiedAll(old(Snapshot()), service.calls[|old(service.calls)|..], closureSession, now, iso)
    {
      var before := service.calls;
      service.OnOpen();
      Deliver(service.calls[|before|..], now, iso);
    }

    /** The open stream delivers one `data` payload. */
    method StreamData(data: string, parsed: Result<Sse.SseEvent, string>, now: int, iso: string)
      modifies this, service
      ensures service.Snapshot() == Sse.AfterData(old(service.Snapshot()), data, parsed, now, iso)
      ensures old(service.calls) <= service.calls
      ensures Snapshot() == NotifiedAll(old(Snapshot()), service.calls[|old(service.calls)|..], closureSession, now, iso)
    {
      var before := service.calls;
      service.OnData(data, parsed, now, iso);
      Deliver(service.calls[|before|..], now, iso);
    }

    /** The stream reports an error; `closed` says the browser has closed it. */
    method StreamFailed(closed: bool, now: int, iso: string)
      modifies this, service
      ensures service.Snapshot() == Sse.AfterErrorEvent(old(service.Snapshot()), closed)
      ensures old(service.calls) <= service.calls
      ensures Snapshot() == NotifiedAll(old(Snapshot()), service.calls[|old(service.calls)|..], closureSession, now, iso)
    {
      var before := service.calls;
      service.OnErrorEvent(closed);
      Deliver(service.calls[|before|..], now, iso);
    }

    /** The client's connection timer fires. */
    method ConnectionTimedOut(now: int, iso: string)
      modifies this, service
      ensures service.Snapshot() == Sse.AfterTimeout(old(service.Snapshot()))
      ensures old(service.calls) <= service.calls
      ensures Snapshot() == NotifiedAll(old(Snapshot()), service.calls[|old(service.calls)|..], closureSession, now, iso)
    {
      var before := service.calls;
      service.ConnectionTimeout();
      Deliver(service.calls[|before|..], now, iso);
    }

    /** The typing timer set by the last chunk fires. */
    method TypingTimeout(now: int, iso: string)
      modifies this
      ensures Snapshot() == TypingTimedOut(old(Snapshot()), closureSession, now, iso)
    {
      if typingTimer && !JsBlank(buffer) {
        HandleStreamCompletion(buffer, closureSession, now, iso);
      }
    }

    method ClearChat()
      modifies this
      ensures Snapshot() == ChatCleared(old(Snapshot()))
    {
      messages := [];
      error := None;
      isTyping := false;
      typingMessage := "";
      buffer := "";
      if typingTimer {
        typingTimer := false;
      }
    }

    method CreateNewSession(outcome: Result<string, string>)
      modifies this
      ensures Snapshot() == SessionCreated(old(Snapshot()), outcome)
    {
      isLoading := true;
      error := None;
      match outcome {
        case Ok(id) =>
          currentSession := Some(id);
          messages := [];
          isLoading := false;
        case Err(m) =>
          error := Some(m);
          isLoading := false;
      }
    }

    method HealthCheck(answer: Option<bool>)
      modifies this
      ensures Snapshot() == HealthChecked(old(Snapshot()), answer)
    {
      match answer {
        case Some(ok) =>
          if ok {
            isConnected := true;
            error := None;
          } else {
            error := Some("Backend nicht erreichbar");
            isConnected := false;
          }
        case None =>
          error := Some("Backend nicht erreichbar - ist der Server gestartet?");
          isConnected := false;
      }
    }

    /** `reconnect`: the client is disconnected (its status call delivered),
        then the error is cleared and the hook shows "not connected". */
    method Reconnect(now: int, iso: string)
      modifies this, service
      ensures service.Snapshot() == Sse.AfterDisconnect(old(service.Snapshot()))
      ensures old(service.calls) <= service.calls
      ensures Snapshot() == NotifiedAll(old(Snapshot()), service.calls[|old(service.calls)|..], closureSession, now, iso)
                              .(error := None, isConnected := false)
    {
      var before := service.calls;
      service.Disconnect();
      Deliver(service.calls[|before|..], now, iso);
      error := None;
      isConnected := false;
    }

    /** The status read scheduled by `reconnect` fires. */
    method ReconnectCheck()
      modifies this
      ensures Snapshot() == old(Snapshot()).(isConnected := service.IsConnected())
    {
      isConnected := service.IsConnected();
    }
  }
}
