/** The browser-side SSE client (`SSEService`): a connection-status machine
    around one `EventSource`, forwarding stream events to three registered
    handlers and counting reconnect attempts with exponential backoff.

    `Service` is the client's state as a value, with one function per
    operation; `SseService` is the mutable object whose methods are proved
    to follow those functions. A registered handler is recorded only as
    "present"; what the client hands to its handlers is appended to `calls`
    in the order the handlers are invoked. */
module SseService {
  import opened Wrappers
  import opened Values
  import Text

  datatype MessageType = Human | Ai | System

  /** The frontend `ChatMessage`; an absent `metadata` is the empty map. */
  datatype FrontMessage = FrontMessage(id: string, msgType: MessageType, content: string,
                                       timestamp: string, metadata: map<string, Value>)

  datatype ErrorKind = ConnectionError | ParseError | ServerError | TimeoutError

  /** `SSEConnectionError` (the optional wrapped `originalError` is not kept). */
  datatype SseConnectionError = SseConnectionError(kind: ErrorKind, message: string, recoverable: bool)

  /** `ConnectionStatus`; `Errored` is the status written `'error'`. */
  datatype ConnectionStatus = Connecting | Connected | Disconnected | Errored

  datatype ChatConfig = ChatConfig(apiBaseUrl: string, sseTimeout: int, maxReconnectAttempts: int,
                                   reconnectInterval: int, messageChunkDelay: int)

  /** `Partial<ChatConfig>`: a field left out is `None`. */
  datatype PartialConfig = PartialConfig(apiBaseUrl: Option<string>, sseTimeout: Option<int>,
                                         maxReconnectAttempts: Option<int>, reconnectInterval: Option<int>,
                                         messageChunkDelay: Option<int>)

  const DefaultConfig := ChatConfig("http://localhost:8000", 30000, 5, 2000, 50)

  /** `{ ...config, ...partial }`: every supplied field wins, every other is kept. */
  function Merge(c: ChatConfig, p: PartialConfig): (r: ChatConfig)
    ensures r.apiBaseUrl == p.apiBaseUrl.GetOr(c.apiBaseUrl)
    ensures r.sseTimeout == p.sseTimeout.GetOr(c.sseTimeout)
    ensures r.maxReconnectAttempts == p.maxReconnectAttempts.GetOr(c.maxReconnectAttempts)
    ensures r.reconnectInterval == p.reconnectInterval.GetOr(c.reconnectInterval)
    ensures r.messageChunkDelay == p.messageChunkDelay.GetOr(c.messageChunkDelay)
    ensures p == PartialConfig(None, None, None, None, None) ==> r == c
  {
    ChatConfig(
      if p.apiBaseUrl.Some? then p.apiBaseUrl.value else c.apiBaseUrl,
      if p.sseTimeout.Some? then p.sseTimeout.value else c.sseTimeout,
      if p.maxReconnectAttempts.Some? then p.maxReconnectAttempts.value else c.maxReconnectAttempts,
      if p.reconnectInterval.Some? then p.reconnectInterval.value else c.reconnectInterval,
      if p.messageChunkDelay.Some? then p.messageChunkDelay.value else c.messageChunkDelay)
  }

  /** Merging twice is merging once with the later partial overriding the earlier. */
  function Override(p: PartialConfig, q: PartialConfig): PartialConfig {
    PartialConfig(
      if q.apiBaseUrl.Some? then q.apiBaseUrl else p.apiBaseUrl,
      if q.sseTimeout.Some? then q.sseTimeout else p.sseTimeout,
      if q.maxReconnectAttempts.Some? then q.maxReconnectAttempts else p.maxReconnectAttempts,
      if q.reconnectInterval.Some? then q.reconnectInterval else p.reconnectInterval,
      if q.messageChunkDelay.Some? then q.messageChunkDelay else p.messageChunkDelay)
  }

  lemma MergeComposes(c: ChatConfig, p: PartialConfig, q: PartialConfig)
    ensures Merge(Merge(c, p), q) == Merge(c, Override(p, q))
    ensures Merge(Merge(c, p), p) == Merge(c, p)
  {
  }

  /** The stream events as the server sends them (`SSEEvent`); a parsed
      object whose `type` is none of the five is `OtherEvent`. */
  datatype SseEvent =
    | SessionInfoEvent(sessionId: string)
    | UserMessageEvent(content: string, sessionId: string)
    | AiChunkEvent(content: string, chunkId: int, isFinal: bool, sessionId: string)
    | CompletionEvent(totalChunks: int, messageCount: int, completeResponse: string, sessionId: string)
    | ErrorEvent(errorType: string, errorMessage: string, recoverable: bool, sessionId: string)
    | OtherEvent

  /** The request an `EventSource` is opened on: `/chat/stream` resolved
      against the base URL, with its query parameters in order. */
  datatype StreamRequest = StreamRequest(base: string, path: string, query: seq<(string, string)>)

  function StreamRequestFor(base: string, message: string, sessionId: Option<string>): (r: StreamRequest)
    ensures r.base == base && r.path == "/chat/stream"
    ensures |r.query| >= 1 && r.query[0] == ("message", message)
    ensures sessionId.Some? && sessionId.value != [] ==> r.query == [("message", message), ("session_id", sessionId.value)]
    ensures !(sessionId.Some? && sessionId.value != []) ==> r.query == [("message", message)]
  {
    var q := [("message", message)];
    if sessionId.Some? && sessionId.value != [] then
      StreamRequest(base, "/chat/stream", q + [("session_id", sessionId.value)])
    else
      StreamRequest(base, "/chat/stream", q)
  }

  /** One invocation of a registered handler. */
  datatype Notice =
    | MessageNotice(message: FrontMessage)
    | ErrorNotice(error: SseConnectionError)
    | StatusNotice(status: ConnectionStatus)

  function ChunkMessage(content: string, chunkId: int, isFinal: bool, sessionId: string, iso: string): FrontMessage {
    FrontMessage("chunk-" + Text.IntToString(chunkId), Ai, content, iso,
                 map["chunk_id" := Int(chunkId), "is_final" := Bool(isFinal), "session_id" := Str(sessionId)])
  }

  function CompletionMessage(totalChunks: int, completeResponse: string, sessionId: string,
                             now: int, iso: string): FrontMessage {
    FrontMessage("completion-" + Text.IntToString(now), System, "--- Response completed ---", iso,
                 map["type" := Str("completion"), "total_chunks" := Int(totalChunks),
                     "complete_response" := Str(completeResponse), "session_id" := Str(sessionId)])
  }

  function StreamDoneMessage(now: int, iso: string): FrontMessage {
    FrontMessage("stream-done-" + Text.IntToString(now), System, "--- Stream DONE Signal ---", iso,
                 map["type" := Str("stream_done"), "ready_for_next" := Bool(true)])
  }

  /** `2^n`, as `Math.pow(2, n)` gives it for a whole `n`. */
  function Pow2(n: nat): (r: nat)
    ensures r >= 1
  {
    if n == 0 then 1 else 2 * Pow2(n - 1)
  }

  /** The delay before reconnect attempt number `attempt` (counting from 1). */
  function Backoff(interval: int, attempt: nat): int
    requires attempt >= 1
  {
    interval * Pow2(attempt - 1)
  }

  lemma BackoffDoubles(interval: int, attempt: nat)
    requires attempt >= 1
    ensures Backoff(interval, 1) == interval
    ensures Backoff(interval, attempt + 1) == 2 * Backoff(interval, attempt)
  {
  }

  /** The client's fields: the open event source, the attempt counter, the
      delay of the pending reconnect timer, the status, which handlers are
      registered, the configuration and the handler invocations so far. */
  datatype Service = Service(eventSource: Option<StreamRequest>, reconnectAttempts: nat,
                             reconnectTimeout: Option<int>, status: ConnectionStatus,
                             hasMessageHandler: bool, hasErrorHandler: bool, hasConnectionHandler: bool,
                             config: ChatConfig, calls: seq<Notice>)

  /** The attempt counter never passes the configured maximum. */
  predicate AttemptsWithin(s: Service) {
    s.reconnectAttempts == 0 || s.reconnectAttempts <= s.config.maxReconnectAttempts
  }

  function Fresh(partial: Option<PartialConfig>): (s: Service)
    ensures s.eventSource == None && s.reconnectAttempts == 0 && s.reconnectTimeout == None
    ensures s.status == Disconnected && s.calls == []
    ensures !s.hasMessageHandler && !s.hasErrorHandler && !s.hasConnectionHandler
    ensures s.config == if partial.Some? then Merge(DefaultConfig, partial.value) else DefaultConfig
    ensures AttemptsWithin(s)
  {
    Service(None, 0, None, Disconnected, false, false, false,
            if partial.Some? then Merge(DefaultConfig, partial.value) else DefaultConfig, [])
  }

  function StatusCalls(s: Service, status: ConnectionStatus): seq<Notice> {
    if s.hasConnectionHandler then [StatusNotice(status)] else []
  }

  function ErrorCalls(s: Service, e: SseConnectionError): seq<Notice> {
    if s.hasErrorHandler then [ErrorNotice(e)] else []
  }

  function MessageCalls(s: Service, m: FrontMessage): seq<Notice> {
    if s.hasMessageHandler then [MessageNotice(m)] else []
  }

  /** `setConnectionStatus`: the status is stored and reported. */
  function WithStatus(s: Service, status: ConnectionStatus): (r: Service)
    ensures r.status == status && r.calls == s.calls + StatusCalls(s, status)
    ensures r.(status := s.status, calls := s.calls) == s
  {
    s.(status := status, calls := s.calls + StatusCalls(s, status))
  }

  /** `disconnect`: no event source, no reconnect timer, no attempts, and
      the status reported as disconnected. */
  function AfterDisconnect(s: Service): (r: Service)
    ensures s.calls <= r.calls
    ensures r.eventSource == None && r.reconnectTimeout == None && r.reconnectAttempts == 0
    ensures r.status == Disconnected && r.calls == s.calls + StatusCalls(s, Disconnected)
    ensures r.config == s.config && r.hasMessageHandler == s.hasMessageHandler
    ensures r.hasErrorHandler == s.hasErrorHandler && r.hasConnectionHandler == s.hasConnectionHandler
  {
    WithStatus(s.(eventSource := None, reconnectTimeout := None, reconnectAttempts := 0), Disconnected)
  }

  /** `attemptReconnect`: one more attempt, with its backoff delay on the timer. */
  function AfterReconnect(s: Service): (r: Service)
    ensures r.reconnectAttempts == s.reconnectAttempts + 1
    ensures r.reconnectTimeout == Some(Backoff(s.config.reconnectInterval, r.reconnectAttempts))
    ensures r.(reconnectAttempts := s.reconnectAttempts, reconnectTimeout := s.reconnectTimeout) == s
  {
    var n := s.reconnectAttempts + 1;
    s.(reconnectAttempts := n, reconnectTimeout := Some(Backoff(s.config.reconnectInterval, n)))
  }

  /** `handleError`: status error, the error forwarded, and a reconnect
      scheduled exactly when the error is recoverable and attempts remain. */
  function AfterError(s: Service, e: SseConnectionError): (r: Service)
    ensures s.calls <= r.calls
    ensures r.status == Errored
    ensures r.calls == s.calls + StatusCalls(s, Errored) + ErrorCalls(s, e)
    ensures (r.reconnectAttempts > s.reconnectAttempts) <==>
              (e.recoverable && s.reconnectAttempts < s.config.maxReconnectAttempts)
    ensures r.reconnectAttempts > s.reconnectAttempts ==>
              r.reconnectAttempts == s.reconnectAttempts + 1 &&
              r.reconnectTimeout == Some(Backoff(s.config.reconnectInterval, r.reconnectAttempts))
    ensures r.reconnectAttempts <= s.reconnectAttempts ==>
              r.reconnectAttempts == s.reconnectAttempts && r.reconnectTimeout == s.reconnectTimeout
    ensures r.eventSource == s.eventSource && r.config == s.config
    ensures r.hasMessageHandler == s.hasMessageHandler && r.hasErrorHandler == s.hasErrorHandler
    ensures r.hasConnectionHandler == s.hasConnectionHandler
  {
    var t := WithStatus(s, Errored);
    var u := t.(calls := t.calls + ErrorCalls(t, e));
    if e.recoverable && u.reconnectAttempts < u.config.maxReconnectAttempts then AfterReconnect(u) else u
  }

  /** `connect`: drop the old connection, report connecting, then open the
      stream request; a failure to build the URL or the event source (its
      message given as `failure`) is a recoverable connection error. */
  function AfterConnect(s: Service, message: string, sessionId: Option<string>, failure: Option<string>): (r: Service)
    ensures s.calls <= r.calls
    ensures failure.None? ==>
              r.eventSource == Some(StreamRequestFor(s.config.apiBaseUrl, message, sessionId)) &&
              r.status == Connecting && r.reconnectAttempts == 0 && r.reconnectTimeout == None &&
              r.calls == s.calls + StatusCalls(s, Disconnected) + StatusCalls(s, Connecting)
    ensures failure.Some? ==>
              r == AfterError(WithStatus(AfterDisconnect(s), Connecting),
                              SseConnectionError(ConnectionError, "Failed to connect: " + failure.value, true))
  {
    var t := WithStatus(AfterDisconnect(s), Connecting);
    match failure
    case Some(m) => AfterError(t, SseConnectionError(ConnectionError, "Failed to connect: " + m, true))
    case None => t.(eventSource := Some(StreamRequestFor(t.config.apiBaseUrl, message, sessionId)))
  }

  /** `onopen`: connected, and the attempt counter starts over. */
  function AfterOpen(s: Service): (r: Service)
    ensures s.calls <= r.calls
    ensures r.status == Connected && r.reconnectAttempts == 0
    ensures r.calls == s.calls + StatusCalls(s, Connected)
    ensures r.eventSource == s.eventSource && r.reconnectTimeout == s.reconnectTimeout
  {
    WithStatus(s, Connected).(reconnectAttempts := 0)
  }

  /** `handleSSEEvent`: chunks and completions go to the message handler,
      server errors to `handleError` with their own `recoverable` flag, and
      everything else calls no handler. */
  function AfterEvent(s: Service, ev: SseEvent, now: int, iso: string): (r: Service)
    ensures s.calls <= r.calls
    ensures ev.SessionInfoEvent? || ev.UserMessageEvent? || ev.OtherEvent? ==> r == s
    ensures ev.AiChunkEvent? ==>
              r == s.(calls := s.calls + MessageCalls(s, ChunkMessage(ev.content, ev.chunkId, ev.isFinal, ev.sessionId, iso)))
    ensures ev.CompletionEvent? ==>
              r == s.(calls := s.calls + MessageCalls(s, CompletionMessage(ev.totalChunks, ev.completeResponse,
                                                                           ev.sessionId, now, iso)))
    ensures ev.ErrorEvent? ==> r == AfterError(s, SseConnectionError(ServerError, ev.errorMessage, ev.recoverable))
  {
    match ev
    case SessionInfoEvent(_) => s
    case UserMessageEvent(_, _) => s
    case AiChunkEvent(content, chunkId, isFinal, sessionId) =>
      s.(calls := s.calls + MessageCalls(s, ChunkMessage(content, chunkId, isFinal, sessionId, iso)))
    case CompletionEvent(totalChunks, _, completeResponse, sessionId) =>
      s.(calls := s.calls + MessageCalls(s, CompletionMessage(totalChunks, completeResponse, sessionId, now, iso)))
    case ErrorEvent(_, errorMessage, recoverable, _) =>
      AfterError(s, SseConnectionError(ServerError, errorMessage, recoverable))
    case OtherEvent => s
  }

  /** `onmessage` with the event's `data` and what `JSON.parse` (followed
      by reading `type`) makes of it, a thrown error given by its message. */
  function AfterData(s: Service, data: string, parsed: Result<SseEvent, string>, now: int, iso: string): (r: Service)
    ensures s.calls <= r.calls
    ensures data == "[DONE]" ==>
              r.eventSource == None && r.status == Disconnected &&
              r.calls == s.calls + StatusCalls(s, Disconnected) + MessageCalls(s, StreamDoneMessage(now, iso)) &&
              r.reconnectAttempts == s.reconnectAttempts && r.reconnectTimeout == s.reconnectTimeout
    ensures data != "[DONE]" && parsed.Err? ==>
              r == AfterError(s, SseConnectionError(ParseError, "Failed to parse SSE data: " + parsed.error, false))
    ensures data != "[DONE]" && parsed.Ok? ==> r == AfterEvent(s, parsed.value, now, iso)
  {
    if data == "[DONE]" then
      var t := WithStatus(s.(eventSource := None), Disconnected);
      t.(calls := t.calls + MessageCalls(t, StreamDoneMessage(now, iso)))
    else
      match parsed
      case Err(m) => AfterError(s, SseConnectionError(ParseError, "Failed to parse SSE data: " + m, false))
      case Ok(ev) => AfterEvent(s, ev, now, iso)
  }

  /** `onerror`: a source the browser has closed (`closed`) is a clean
      disconnect; any other error, or no source at all, is a recoverable
      connection error. */
  function AfterErrorEvent(s: Service, closed: bool): (r: Service)
    ensures s.calls <= r.calls
    ensures s.eventSource.Some? && closed ==> r == WithStatus(s, Disconnected)
    ensures !(s.eventSource.Some? && closed) ==>
              r == AfterError(s, SseConnectionError(ConnectionError, "SSE connection error occurred", true))
  {
    if s.eventSource.Some? && closed then WithStatus(s, Disconnected)
    else AfterError(s, SseConnectionError(ConnectionError, "SSE connection error occurred", true))
  }

  /** The connection timer of `connect` firing: only a connection still
      connecting times out. */
  function AfterTimeout(s: Service): (r: Service)
    ensures s.calls <= r.calls
    ensures s.status != Connecting ==> r == s
    ensures s.status == Connecting ==>
              r == AfterError(s, SseConnectionError(TimeoutError, "Connection timeout - no response from server", true))
  {
    if s.status == Connecting then
      AfterError(s, SseConnectionError(TimeoutError, "Connection timeout - no response from server", true))
    else s
  }

  /** `reset`: disconnected, and no handler registered any more. */
  function AfterReset(s: Service): (r: Service)
    ensures s.calls <= r.calls
    ensures r.eventSource == None && r.reconnectTimeout == None && r.reconnectAttempts == 0
    ensures r.status == Disconnected && r.calls == s.calls + StatusCalls(s, Disconnected)
    ensures !r.hasMessageHandler && !r.hasErrorHandler && !r.hasConnectionHandler && r.config == s.config
  {
    AfterDisconnect(s).(reconnectAttempts := 0, hasMessageHandler := false, hasErrorHandler := false,
                        hasConnectionHandler := false)
  }

  /** What can happen to a client between two observations. */
  datatype Input =
    | ConnectInput(message: string, sessionId: Option<string>, failure: Option<string>)
    | DisconnectInput
    | OpenInput
    | DataInput(data: string, parsed: Result<SseEvent, string>, now: int, iso: string)
    | ErrorEventInput(closed: bool)
    | TimeoutInput
    | ResetInput

  function Apply(s: Service, i: Input): Service {
    match i
    case ConnectInput(message, sessionId, failure) => AfterConnect(s, message, sessionId, failure)
    case DisconnectInput => AfterDisconnect(s)
    case OpenInput => AfterOpen(s)
    case DataInput(data, parsed, now, iso) => AfterData(s, data, parsed, now, iso)
    case ErrorEventInput(closed) => AfterErrorEvent(s, closed)
    case TimeoutInput => AfterTimeout(s)
    case ResetInput => AfterReset(s)
  }

  function Run(s: Service, inputs: seq<Input>): Service
    decreases |inputs|
  {
    if inputs == [] then s else Run(Apply(s, inputs[0]), inputs[1..])
  }

  /** Every step keeps the attempt counter within the configured maximum. */
  lemma StepKeepsAttemptsWithin(s: Service, i: Input)
    requires AttemptsWithin(s)
    ensures AttemptsWithin(Apply(s, i))
    ensures Apply(s, i).config == s.config
  {
    match i {
      case ConnectInput(_, _, _) =>
      case DisconnectInput =>
      case OpenInput =>
      case DataInput(data, parsed, now, iso) =>
        if data != "[DONE]" && parsed.Ok? {
          EventKeepsAttemptsWithin(s, parsed.value, now, iso);
        }
      case ErrorEventInput(_) =>
      case TimeoutInput =>
      case ResetInput =>
    }
  }

  lemma EventKeepsAttemptsWithin(s: Service, ev: SseEvent, now: int, iso: string)
    requires AttemptsWithin(s)
    ensures AttemptsWithin(AfterEvent(s, ev, now, iso))
    ensures AfterEvent(s, ev, now, iso).config == s.config
  {
  }

  /** So does every run of steps: with the configuration unchanged, the
      client never makes more than `maxReconnectAttempts` attempts in a row. */
  lemma {:induction false} RunKeepsAttemptsWithin(s: Service, inputs: seq<Input>)
    requires AttemptsWithin(s)
    ensures AttemptsWithin(Run(s, inputs))
    ensures Run(s, inputs).config == s.config
    decreases |inputs|
  {
    if inputs != [] {
      StepKeepsAttemptsWithin(s, inputs[0]);
      RunKeepsAttemptsWithin(Apply(s, inputs[0]), inputs[1..]);
    }
  }

  lemma {:induction false} RunAppend(s: Service, a: seq<Input>, b: seq<Input>)
    ensures Run(s, a + b) == Run(Run(s, a), b)
    decreases |a|
  {
    if a == [] {
      assert a + b == b;
    } else {
      assert (a + b)[0] == a[0] && (a + b)[1..] == a[1..] + b;
      RunAppend(Apply(s, a[0]), a[1..], b);
    }
  }

  /** The message handler's calls for streamed chunks, numbered from 1 as
      the server numbers them. */
  function ChunkCalls(chunks: seq<string>, sessionId: string, iso: string): (ns: seq<Notice>)
    ensures |ns| == |chunks|
    decreases |chunks|
  {
    if chunks == [] then []
    else ChunkCalls(chunks[..|chunks| - 1], sessionId, iso)
         + [MessageNotice(ChunkMessage(chunks[|chunks| - 1], |chunks|, false, sessionId, iso))]
  }

  /** The payload of one server event, as parsed, with `encode` giving the
      raw text it arrived as. */
  function EventInput(ev: SseEvent, encode: SseEvent -> string, now: int, iso: string): Input {
    DataInput(encode(ev), Ok(ev), now, iso)
  }

  function ChunkInputs(chunks: seq<string>, sessionId: string, encode: SseEvent -> string,
                       now: int, iso: string): (ins: seq<Input>)
    ensures |ins| == |chunks|
    decreases |chunks|
  {
    if chunks == [] then []
    else ChunkInputs(chunks[..|chunks| - 1], sessionId, encode, now, iso)
         + [EventInput(AiChunkEvent(chunks[|chunks| - 1], |chunks|, false, sessionId), encode, now, iso)]
  }

  /** One answered message as the client receives it: the stream opens, the
      server announces the session and echoes the user's text, streams the
      chunks, reports completion, and ends with "[DONE]". */
  function StreamInputs(chunks: seq<string>, full: string, sessionId: string, userText: string, messageCount: int,
                        encode: SseEvent -> string, now: int, iso: string): seq<Input> {
    [OpenInput, EventInput(SessionInfoEvent(sessionId), encode, now, iso),
     EventInput(UserMessageEvent(userText, sessionId), encode, now, iso)]
    + ChunkInputs(chunks, sessionId, encode, now, iso)
    + [EventInput(CompletionEvent(|chunks|, messageCount, full, sessionId), encode, now, iso),
       DataInput("[DONE]", Err(""), now, iso)]
  }

  /** The handler calls the client makes for it. */
  function ExchangeCalls(chunks: seq<string>, full: string, sessionId: string, now: int, iso: string): seq<Notice> {
    [StatusNotice(Connected)] + ChunkCalls(chunks, sessionId, iso)
    + [MessageNotice(CompletionMessage(|chunks|, full, sessionId, now, iso)),
       StatusNotice(Disconnected), MessageNotice(StreamDoneMessage(now, iso))]
  }

  lemma {:induction false} ChunksForwarded(s: Service, chunks: seq<string>, sessionId: string,
                                           encode: SseEvent -> string, now: int, iso: string)
    requires s.hasMessageHandler
    requires forall ev :: encode(ev) != "[DONE]"
    ensures Run(s, ChunkInputs(chunks, sessionId, encode, now, iso))
            == s.(calls := s.calls + ChunkCalls(chunks, sessionId, iso))
    decreases |chunks|
  {
    if chunks != [] {
      var init := chunks[..|chunks| - 1];
      var last := AiChunkEvent(chunks[|chunks| - 1], |chunks|, false, sessionId);
      RunAppend(s, ChunkInputs(init, sessionId, encode, now, iso), [EventInput(last, encode, now, iso)]);
      ChunksForwarded(s, init, sessionId, encode, now, iso);
      var t := s.(calls := s.calls + ChunkCalls(init, sessionId, iso));
      assert Run(t, [EventInput(last, encode, now, iso)]) == Apply(t, EventInput(last, encode, now, iso));
      assert s.calls + ChunkCalls(chunks, sessionId, iso)
          == (s.calls + ChunkCalls(init, sessionId, iso)) + [MessageNotice(ChunkMessage(chunks[|chunks| - 1], |chunks|, false, sessionId, iso))];
    }
  }

  /** The opening of a stream: connected, and the session and echo frames
      call no handler. */
  lemma StreamHeadRun(s: Service, sessionId: string, userText: string, encode: SseEvent -> string,
                      now: int, iso: string)
    requires forall ev :: encode(ev) != "[DONE]"
    ensures Run(s, [OpenInput, EventInput(SessionInfoEvent(sessionId), encode, now, iso),
                    EventInput(UserMessageEvent(userText, sessionId), encode, now, iso)]) == AfterOpen(s)
  {
    var e1 := SessionInfoEvent(sessionId);
    var e2 := UserMessageEvent(userText, sessionId);
    var head := [OpenInput, EventInput(e1, encode, now, iso), EventInput(e2, encode, now, iso)];
    assert encode(e1) != "[DONE]" && encode(e2) != "[DONE]";
    var t := AfterOpen(s);
    assert Run(s, head) == Run(t, head[1..]);
    assert Apply(t, head[1]) == t;
    assert Run(t, head[1..]) == Run(t, head[2..]);
    assert Apply(t, head[2]) == t;
    assert Run(t, head[2..]) == Run(t, []);
  }

  /** The end of a stream: the completion message, then "[DONE]". */
  lemma StreamTailRun(s: Service, n: int, messageCount: int, full: string, sessionId: string,
                      encode: SseEvent -> string, now: int, iso: string)
    requires s.hasMessageHandler && s.hasConnectionHandler
    requires forall ev :: encode(ev) != "[DONE]"
    ensures var r := Run(s, [EventInput(CompletionEvent(n, messageCount, full, sessionId), encode, now, iso),
                             DataInput("[DONE]", Err(""), now, iso)]);
            r.calls == s.calls + [MessageNotice(CompletionMessage(n, full, sessionId, now, iso)),
                                  StatusNotice(Disconnected), MessageNotice(StreamDoneMessage(now, iso))] &&
            r.status == Disconnected && r.eventSource == None && r.reconnectAttempts == s.reconnectAttempts
  {
    var ev := CompletionEvent(n, messageCount, full, sessionId);
    var tail := [EventInput(ev, encode, now, iso), DataInput("[DONE]", Err(""), now, iso)];
    assert encode(ev) != "[DONE]";
    var s1 := s.(calls := s.calls + [MessageNotice(CompletionMessage(n, full, sessionId, now, iso))]);
    assert Apply(s, tail[0]) == s1;
    assert Run(s, tail) == Run(s1, tail[1..]);
    var s2 := AfterData(s1, "[DONE]", Err(""), now, iso);
    assert Run(s1, tail[1..]) == Run(s2, []);
  }

  /** A client with its handlers registered turns one answered message into
      exactly the exchange calls, and ends disconnected with no source and
      no attempts counted. */
  lemma StreamProducesExchange(s: Service, chunks: seq<string>, full: string, sessionId: string, userText: string,
                               messageCount: int, encode: SseEvent -> string, now: int, iso: string)
    requires s.hasMessageHandler && s.hasConnectionHandler
    requires forall ev :: encode(ev) != "[DONE]"
    ensures var r := Run(s, StreamInputs(chunks, full, sessionId, userText, messageCount, encode, now, iso));
            r.calls == s.calls + ExchangeCalls(chunks, full, sessionId, now, iso) &&
            r.status == Disconnected && r.eventSource == None && r.reconnectAttempts == 0
  {
    var head := [OpenInput, EventInput(SessionInfoEvent(sessionId), encode, now, iso),
                 EventInput(UserMessageEvent(userText, sessionId), encode, now, iso)];
    var body := ChunkInputs(chunks, sessionId, encode, now, iso);
    var tail := [EventInput(CompletionEvent(|chunks|, messageCount, full, sessionId), encode, now, iso),
                 DataInput("[DONE]", Err(""), now, iso)];
    assert StreamInputs(chunks, full, sessionId, userText, messageCount, encode, now, iso) == (head + body) + tail;
    RunAppend(s, head + body, tail);
    RunAppend(s, head, body);
    StreamHeadRun(s, sessionId, userText, encode, now, iso);
    var s1 := AfterOpen(s);
    ChunksForwarded(s1, chunks, sessionId, encode, now, iso);
    var s2 := s1.(calls := s1.calls + ChunkCalls(chunks, sessionId, iso));
    assert Run(s, head + body) == s2;
    StreamTailRun(s2, |chunks|, messageCount, full, sessionId, encode, now, iso);
    var last := [MessageNotice(CompletionMessage(|chunks|, full, sessionId, now, iso)),
                 StatusNotice(Disconnected), MessageNotice(StreamDoneMessage(now, iso))];
    var cc := ChunkCalls(chunks, sessionId, iso);
    assert s2.calls == (s.calls + [StatusNotice(Connected)]) + cc;
    assert ExchangeCalls(chunks, full, sessionId, now, iso) == ([StatusNotice(Connected)] + cc) + last;
    AppendRegroup(s.calls, [StatusNotice(Connected)], cc, last);
  }

  lemma AppendRegroup<T>(a: seq<T>, b: seq<T>, c: seq<T>, d: seq<T>)
    ensures ((a + b) + c) + d == a + ((b + c) + d)
  {
  }

  /** The errors handled one after another. */
  function AfterErrors(s: Service, errors: seq<SseConnectionError>): Service
    decreases |errors|
  {
    if errors == [] then s else AfterErrors(AfterError(s, errors[0]), errors[1..])
  }

  function Min(a: int, b: int): int {
    if a <= b then a else b
  }

  /** A run of recoverable errors uses one attempt each until the maximum is
      reached, and the delay then on the timer belongs to the last attempt. */
  lemma {:induction false} RecoverableErrorsCount(s: Service, errors: seq<SseConnectionError>)
    requires forall k :: 0 <= k < |errors| ==> errors[k].recoverable
    requires s.reconnectAttempts <= s.config.maxReconnectAttempts
    ensures AfterErrors(s, errors).reconnectAttempts == Min(s.reconnectAttempts + |errors|, s.config.maxReconnectAttempts)
    ensures AfterErrors(s, errors).config == s.config
    ensures errors != [] && s.reconnectAttempts + |errors| <= s.config.maxReconnectAttempts ==>
              AfterErrors(s, errors).reconnectTimeout ==
              Some(Backoff(s.config.reconnectInterval, AfterErrors(s, errors).reconnectAttempts))
    decreases |errors|
  {
    if errors != [] {
      var t := AfterError(s, errors[0]);
      RecoverableErrorsCount(t, errors[1..]);
    }
  }

  /** Errors that are not recoverable never schedule a reconnect. */
  lemma {:induction false} UnrecoverableErrorsKeepCount(s: Service, errors: seq<SseConnectionError>)
    requires forall k :: 0 <= k < |errors| ==> !errors[k].recoverable
    ensures AfterErrors(s, errors).reconnectAttempts == s.reconnectAttempts
    ensures AfterErrors(s, errors).reconnectTimeout == s.reconnectTimeout
    ensures errors != [] ==> AfterErrors(s, errors).status == Errored
    decreases |errors|
  {
    if errors != [] {
      UnrecoverableErrorsKeepCount(AfterError(s, errors[0]), errors[1..]);
    }
  }

  /** A parse failure is one such error: the status turns to error and no
      reconnect is scheduled. */
  lemma ParseFailureDoesNotReconnect(s: Service, data: string, message: string, now: int, iso: string)
    requires data != "[DONE]"
    ensures AfterData(s, data, Err(message), now, iso).status == Errored
    ensures AfterData(s, data, Err(message), now, iso).reconnectAttempts == s.reconnectAttempts
    ensures AfterData(s, data, Err(message), now, iso).reconnectTimeout == s.reconnectTimeout
  {
  }

  /** "[DONE]" ends the stream with exactly one `stream_done` message to a
      registered message handler, after the disconnected status. */
  lemma DoneSendsOneStreamDone(s: Service, parsed: Result<SseEvent, string>, now: int, iso: string)
    requires s.hasMessageHandler
    ensures var r := AfterData(s, "[DONE]", parsed, now, iso);
            |r.calls| == |s.calls| + |StatusCalls(s, Disconnected)| + 1 &&
            r.calls[|r.calls| - 1] == MessageNotice(StreamDoneMessage(now, iso)) &&
            r.calls[|r.calls| - 1].message.metadata["type"] == Str("stream_done") &&
            forall k :: |s.calls| <= k < |r.calls| - 1 ==> r.calls[k].StatusNotice?
  {
  }

  class SseService {
    var eventSource: Option<StreamRequest>
    var reconnectAttempts: nat
    var reconnectTimeout: Option<int>
    var connectionStatus: ConnectionStatus
    var onMessageHandler: bool
    var onErrorHandler: bool
    var onConnectionHandler: bool
    var config: ChatConfig
    var calls: seq<Notice>

    function Snapshot(): Service
      reads this
    {
      Service(eventSource, reconnectAttempts, reconnectTimeout, connectionStatus,
              onMessageHandler, onErrorHandler, onConnectionHandler, config, calls)
    }

    constructor (partial: Option<PartialConfig>)
      ensures Snapshot() == Fresh(partial)
    {
      eventSource := None;
      reconnectAttempts := 0;
      reconnectTimeout := None;
      connectionStatus := Disconnected;
      onMessageHandler := false;
      onErrorHandler := false;
      onConnectionHandler := false;
      calls := [];
      if partial.Some? {
        config := Merge(DefaultConfig, partial.value);
      } else {
        config := DefaultConfig;
      }
    }

    method SetConnectionStatus(status: ConnectionStatus)
      modifies this
      ensures Snapshot() == WithStatus(old(Snapshot()), status)
    {
      connectionStatus := status;
      if onConnectionHandler {
        calls := calls + [StatusNotice(status)];
      }
    }

    method Disconnect()
      modifies this
      ensures Snapshot() == AfterDisconnect(old(Snapshot()))
    {
      if eventSource.Some? {
        eventSource := None;
      }
      if reconnectTimeout.Some? {
        reconnectTimeout := None;
      }
      reconnectAttempts := 0;
      SetConnectionStatus(Disconnected);
    }

    method AttemptReconnect()
      modifies this
      ensures Snapshot() == AfterReconnect(old(Snapshot()))
    {
      reconnectAttempts := reconnectAttempts + 1;
      var delay := config.reconnectInterval * Pow2(reconnectAttempts - 1);
      reconnectTimeout := Some(delay);
    }

    method HandleError(e: SseConnectionError)
      modifies this
      ensures Snapshot() == AfterError(old(Snapshot()), e)
    {
      SetConnectionStatus(Errored);
      if onErrorHandler {
        calls := calls + [ErrorNotice(e)];
      }
      if e.recoverable && reconnectAttempts < config.maxReconnectAttempts {
        AttemptReconnect();
      }
    }

    method Connect(message: string, sessionId: Option<string>, failure: Option<string>)
      modifies this
      ensures Snapshot() == AfterConnect(old(Snapshot()), message, sessionId, failure)
    {
      Disconnect();
      SetConnectionStatus(Connecting);
      if failure.Some? {
        HandleError(SseConnectionError(ConnectionError, "Failed to connect: " + failure.value, true));
      } else {
        eventSource := Some(StreamRequestFor(config.apiBaseUrl, message, sessionId));
      }
    }

    method OnOpen()
      modifies this
      ensures Snapshot() == AfterOpen(old(Snapshot()))
    {
      SetConnectionStatus(Connected);
      reconnectAttempts := 0;
    }

    method HandleSseEvent(ev: SseEvent, now: int, iso: string)
      modifies this
      ensures Snapshot() == AfterEvent(old(Snapshot()), ev, now, iso)
    {
      match ev {
        case SessionInfoEvent(_) =>
        case UserMessageEvent(_, _) =>
        case AiChunkEvent(content, chunkId, isFinal, sessionId) =>
          if onMessageHandler {
            calls := calls + [MessageNotice(ChunkMessage(content, chunkId, isFinal, sessionId, iso))];
          }
        case CompletionEvent(totalChunks, _, completeResponse, sessionId) =>
          if onMessageHandler {
            calls := calls + [MessageNotice(CompletionMessage(totalChunks, completeResponse, sessionId, now, iso))];
          }
        case ErrorEvent(_, errorMessage, recoverable, _) =>
          HandleError(SseConnectionError(ServerError, errorMessage, recoverable));
        case OtherEvent =>
      }
    }

    method OnData(data: string, parsed: Result<SseEvent, string>, now: int, iso: string)
      modifies this
      ensures Snapshot() == AfterData(old(Snapshot()), data, parsed, now, iso)
    {
      if data == "[DONE]" {
        eventSource := None;
        SetConnectionStatus(Disconnected);
        if onMessageHandler {
          calls := calls + [MessageNotice(StreamDoneMessage(now, iso))];
        }
        return;
      }
      match parsed {
        case Err(m) =>
          HandleError(SseConnectionError(ParseError, "Failed to parse SSE data: " + m, false));
        case Ok(ev) =>
          HandleSseEvent(ev, now, iso);
      }
    }

    method OnErrorEvent(closed: bool)
      modifies this
      ensures Snapshot() == AfterErrorEvent(old(Snapshot()), closed)
    {
      if eventSource.Some? && closed {
        SetConnectionStatus(Disconnected);
        return;
      }
      HandleError(SseConnectionError(ConnectionError, "SSE connection error occurred", true));
    }

    method ConnectionTimeout()
      modifies this
      ensures Snapshot() == AfterTimeout(old(Snapshot()))
    {
      if connectionStatus == Connecting {
        HandleError(SseConnectionError(TimeoutError, "Connection timeout - no response from server", true));
      }
    }

    method OnMessage()
      modifies this
      ensures Snapshot() == old(Snapshot()).(hasMessageHandler := true)
    {
      onMessageHandler := true;
    }

    method OnError()
      modifies this
      ensures Snapshot() == old(Snapshot()).(hasErrorHandler := true)
    {
      onErrorHandler := true;
    }

    method OnConnection()
      modifies this
      ensures Snapshot() == old(Snapshot()).(hasConnectionHandler := true)
    {
      onConnectionHandler := true;
    }

    function GetConnectionStatus(): (r: ConnectionStatus)
      reads this
      ensures r == Snapshot().status
    {
      connectionStatus
    }

    function IsConnected(): (r: bool)
      reads this
      ensures r <==> GetConnectionStatus() == Connected
    {
      connectionStatus == Connected
    }

    method UpdateConfig(partial: PartialConfig)
      modifies this
      ensures Snapshot() == old(Snapshot()).(config := Merge(old(config), partial))
    {
      config := Merge(config, partial);
    }

    function GetConfig(): (r: ChatConfig)
      reads this
      ensures r == Snapshot().config
    {
      config
    }

    method Reset()
      modifies this
      ensures Snapshot() == AfterReset(old(Snapshot()))
    {
      Disconnect();
      reconnectAttempts := 0;
      onMessageHandler := false;
      onErrorHandler := false;
      onConnectionHandler := false;
    }
  }
}
