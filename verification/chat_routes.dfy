/** The chat HTTP routes: the server-sent-event stream of one chat turn and
    the session endpoints. The stream is the list of frames the generator
    yields, in order. */
module ChatRoutes {
  import opened Wrappers
  import opened Values
  import opened Messages
  import opened State
  import opened Exceptions
  import opened SessionManagement

  /** One yielded frame: a JSON payload, or the final `[DONE]` marker. */
  datatype SseEvent = Data(payload: map<string, Value>) | DoneSignal

  /** The text of a frame, with `dumps` standing for `json.dumps`. */
  function Wire(e: SseEvent, dumps: map<string, Value> -> string): (w: string)
    ensures |w| >= 8 && w[..6] == "data: " && w[|w| - 2..] == "\n\n"
  {
    "data: " + (match e case Data(p) => dumps(p) case DoneSignal => "[DONE]") + "\n\n"
  }

  /** How the chunk source of the turn ends: normally, with a service
      exception, or with any other exception (its `str()`). */
  datatype StreamEnd = Finished | ServiceFailed(exc: LlmServiceException) | Failed(text: string)

  /** The reply stream of the turn: the chunks it yields, then how it ends. */
  datatype ChunkSource = ChunkSource(chunks: seq<string>, end: StreamEnd)

  /** `complete_response` after the given chunks. */
  function Concat(chunks: seq<string>): string {
    if chunks == [] then "" else Concat(chunks[..|chunks| - 1]) + chunks[|chunks| - 1]
  }

  function ChunkEvent(chunk: string, chunkId: int, sessionId: string): SseEvent {
    Data(map["type" := Str("ai_chunk"), "content" := Str(chunk), "chunk_id" := Int(chunkId),
             "session_id" := Str(sessionId), "is_final" := Bool(false)])
  }

  /** The `ai_chunk` frames, numbered from 1 in order. */
  function ChunkEvents(chunks: seq<string>, sessionId: string): (r: seq<SseEvent>)
    ensures |r| == |chunks|
    ensures forall k {:trigger r[k]} :: 0 <= k < |chunks| ==> r[k] == ChunkEvent(chunks[k], k + 1, sessionId)
    ensures forall k :: 0 <= k < |r| ==> r[k].Data?
  {
    if chunks == [] then []
    else ChunkEvents(chunks[..|chunks| - 1], sessionId) + [ChunkEvent(chunks[|chunks| - 1], |chunks|, sessionId)]
  }

  /** The session the stream uses: a fresh one when no (or an empty) id is
      given, the given one otherwise, created when missing. */
  function Resolve(t: Table, requested: Option<string>, freshId: string, now: int): (r: (string, Table))
    ensures requested.None? || requested.value == [] ==> r.0 == freshId && r.1 == Created(t, freshId, now)
    ensures requested.Some? && requested.value != [] ==> r.0 == requested.value
    ensures requested.Some? && requested.value != [] && requested.value in t ==> r.1 == t
    ensures r.0 in r.1 && forall k :: k in t && k != r.0 ==> k in r.1 && r.1[k] == t[k]
  {
    if requested.None? || requested.value == [] then (freshId, Created(t, freshId, now))
    else if requested.value !in t then (requested.value, Created(t, requested.value, now))
    else (requested.value, t)
  }

  /** `session_id or "unknown"`: the id the request named, not the one
      created for it. */
  function ReportedId(requested: Option<string>): string {
    if requested.None? || requested.value == [] then "unknown" else requested.value
  }

  function ErrorEvent(end: StreamEnd, requested: Option<string>): SseEvent
    requires !end.Finished?
  {
    match end
    case ServiceFailed(x) =>
      Data(map["type" := Str("error"), "error_type" := Str(TypeValue(x.errorType)), "error_message" := Str(x.message),
               "recoverable" := Bool(x.recoverable), "session_id" := Str(ReportedId(requested))])
    case Failed(text) =>
      Data(map["type" := Str("error"), "error_type" := Str("unexpected_error"), "error_message" := Str(text),
               "recoverable" := Bool(false), "session_id" := Str(ReportedId(requested))])
  }

  /** The `completion` frame, with the counters the generator kept. */
  function CompletionEvent(sessionId: string, totalChunks: int, response: string, after: Option<StateRecord>): SseEvent {
    Data(map[
      "type" := Str("completion"),
      "session_id" := Str(sessionId),
      "total_chunks" := Int(totalChunks),
      "message_count" := Int(if after.Some? then |after.value.messages| else 0),
      "complete_response" := Str(response),
      "agent" := (if after.Some? && after.value.currentAgent.Some? then Str(AgentName(after.value.currentAgent.value)) else Null)])
  }

  function SessionInfoEvent(id: string, info: Option<map<string, Value>>): SseEvent {
    Data(map["type" := Str("session_info"), "session_id" := Str(id),
             "timestamp" := match info case None => Null case Some(d) => Obj(d)])
  }

  function UserMessageEvent(id: string, message: string): SseEvent {
    Data(map["type" := Str("user_message"), "content" := Str(message), "session_id" := Str(id)])
  }

  /** The frame after the chunks: completion on a normal end, error otherwise. */
  function TailEvent(id: string, after: Option<StateRecord>, requested: Option<string>, src: ChunkSource): SseEvent {
    if src.end.Finished? then CompletionEvent(id, |src.chunks|, Concat(src.chunks), after)
    else ErrorEvent(src.end, requested)
  }

  /** The frames of one turn for session `id`, given its summary and its
      state as the generator reads them. */
  function Frames(id: string, info: Option<map<string, Value>>, after: Option<StateRecord>, message: string,
                  requested: Option<string>, src: ChunkSource): seq<SseEvent> {
    Layout(SessionInfoEvent(id, info), UserMessageEvent(id, message), ChunkEvents(src.chunks, id),
           TailEvent(id, after, requested, src))
  }

  /** Two opening frames, the chunk frames, the closing frame, then `[DONE]`. */
  function Layout(first: SseEvent, second: SseEvent, chunks: seq<SseEvent>, last: SseEvent): seq<SseEvent> {
    [first, second] + chunks + [last, DoneSignal]
  }

  /** Where each part of a layout sits, and that only its final frame is
      `[DONE]` when the other parts are data frames. */
  lemma LayoutPositions(first: SseEvent, second: SseEvent, chunks: seq<SseEvent>, last: SseEvent)
    requires first.Data? && second.Data? && last.Data?
    requires forall k :: 0 <= k < |chunks| ==> chunks[k].Data?
    ensures var ev := Layout(first, second, chunks, last);
      var n := |chunks|;
      |ev| == n + 4 && ev[0] == first && ev[1] == second && ev[2..n + 2] == chunks &&
      ev[n + 2] == last && ev[n + 3] == DoneSignal &&
      (forall k :: 0 <= k < n + 3 ==> ev[k].Data?)
  {
    var ev := Layout(first, second, chunks, last);
    var n := |chunks|;
    forall k | 0 <= k < n + 3 ensures ev[k].Data? {
      if 2 <= k < n + 2 {
        assert ev[k] == chunks[k - 2];
      }
    }
  }

  /** The frames `generate_sse_stream` yields for table `t` (after the
      session has been resolved) and session `id`. */
  function StreamEvents(t: Table, id: string, message: string, requested: Option<string>, src: ChunkSource,
                        iso: int -> string): seq<SseEvent> {
    Frames(id, SessionInfo(t, id, iso), Lookup(t, id), message, requested, src)
  }

  /** The type field of a data frame. */
  function EventType(e: SseEvent): Value {
    match e
    case Data(p) => Get(p, "type")
    case DoneSignal => Null
  }

  /** Every stream is: session_info, user_message, the `ai_chunk` frames
      (numbered 1..N by `ChunkEvents`), then a completion or an error frame,
      then `[DONE]`, and `[DONE]` appears nowhere else. */
  lemma StreamOrder(t: Table, id: string, message: string, requested: Option<string>, src: ChunkSource, iso: int -> string)
    ensures var ev := StreamEvents(t, id, message, requested, src, iso);
      var n := |src.chunks|;
      |ev| == n + 4 &&
      EventType(ev[0]) == Str("session_info") && EventType(ev[1]) == Str("user_message") &&
      ev[2..n + 2] == ChunkEvents(src.chunks, id) &&
      EventType(ev[n + 2]) == (if src.end.Finished? then Str("completion") else Str("error")) &&
      ev[n + 3] == DoneSignal &&
      (forall k :: 0 <= k < n + 3 ==> ev[k] != DoneSignal)
  {
    FramesOrder(id, SessionInfo(t, id, iso), Lookup(t, id), message, requested, src);
  }

  lemma FramesOrder(id: string, info: Option<map<string, Value>>, after: Option<StateRecord>, message: string,
                    requested: Option<string>, src: ChunkSource)
    ensures var ev := Frames(id, info, after, message, requested, src);
      var n := |src.chunks|;
      |ev| == n + 4 &&
      EventType(ev[0]) == Str("session_info") && EventType(ev[1]) == Str("user_message") &&
      ev[2..n + 2] == ChunkEvents(src.chunks, id) &&
      EventType(ev[n + 2]) == (if src.end.Finished? then Str("completion") else Str("error")) &&
      ev[n + 3] == DoneSignal &&
      (forall k :: 0 <= k < n + 3 ==> ev[k] != DoneSignal)
  {
    var last := TailEvent(id, after, requested, src);
    assert EventType(last) == (if src.end.Finished? then Str("completion") else Str("error"));
    LayoutPositions(SessionInfoEvent(id, info), UserMessageEvent(id, message), ChunkEvents(src.chunks, id), last);
  }

  /** A normal end reports the number of chunks and their in-order
      concatenation. */
  lemma CompletionReportsChunks(t: Table, id: string, message: string, requested: Option<string>, src: ChunkSource,
                                iso: int -> string)
    requires src.end.Finished?
    ensures var ev := StreamEvents(t, id, message, requested, src, iso);
      var p := ev[|src.chunks| + 2].payload;
      p["total_chunks"] == Int(|src.chunks|) && p["complete_response"] == Str(Concat(src.chunks))
  {
  }

  /** The error frame carries the service exception's own recoverable flag,
      and `false` for any other exception. */
  lemma ErrorRecoverability(t: Table, id: string, message: string, requested: Option<string>, src: ChunkSource,
                            iso: int -> string)
    requires !src.end.Finished?
    ensures var p := StreamEvents(t, id, message, requested, src, iso)[|src.chunks| + 2].payload;
      p["recoverable"] == Bool(src.end.ServiceFailed? && src.end.exc.recoverable) &&
      p["session_id"] == Str(ReportedId(requested))
  {
  }

  /** The session handling at the head of `generate_sse_stream`. */
  method ResolveSession(mgr: SessionManager, requested: Option<string>, freshId: string, now: int) returns (id: string)
    modifies mgr
    ensures (id, mgr.sessions) == Resolve(old(mgr.sessions), requested, freshId, now)
  {
    if requested.None? || requested.value == [] {
      id := mgr.CreateSession(None, freshId, now);
    } else {
      id := requested.value;
      var existing := mgr.GetSession(id);
      if existing.None? {
        var _ := mgr.CreateSession(Some(id), id, now);
      }
    }
  }

  /** The chunk loop of `generate_sse_stream`: one `ai_chunk` frame per
      chunk, while accumulating the response text and the chunk count. */
  method EmitChunks(id: string, chunks: seq<string>) returns (events: seq<SseEvent>, completeResponse: string, chunkCount: int)
    ensures events == ChunkEvents(chunks, id)
    ensures completeResponse == Concat(chunks) && chunkCount == |chunks|
  {
    events := [];
    completeResponse := "";
    chunkCount := 0;
    while chunkCount < |chunks|
      invariant 0 <= chunkCount <= |chunks|
      invariant completeResponse == Concat(chunks[..chunkCount])
      invariant events == ChunkEvents(chunks[..chunkCount], id)
    {
      var chunk := chunks[chunkCount];
      completeResponse := completeResponse + chunk;
      chunkCount := chunkCount + 1;
      assert chunks[..chunkCount][..chunkCount - 1] == chunks[..chunkCount - 1];
      events := events + [ChunkEvent(chunk, chunkCount, id)];
    }
    assert chunks[..chunkCount] == chunks;
  }

  /** The yielding part of `generate_sse_stream`. */
  method EmitFrames(id: string, info: Option<map<string, Value>>, after: Option<StateRecord>, message: string,
                    requested: Option<string>, src: ChunkSource) returns (events: seq<SseEvent>)
    ensures events == Frames(id, info, after, message, requested, src)
  {
    var chunkEvents, completeResponse, chunkCount := EmitChunks(id, src.chunks);
    var last;
    if src.end.Finished? {
      last := CompletionEvent(id, chunkCount, completeResponse, after);
    } else {
      last := ErrorEvent(src.end, requested);
    }
    events := [SessionInfoEvent(id, info), UserMessageEvent(id, message)] + chunkEvents + [last, DoneSignal];
  }

  /** `generate_sse_stream` */
  method GenerateSseStream(mgr: SessionManager, message: string, requested: Option<string>, src: ChunkSource,
                           freshId: string, now: int, iso: int -> string) returns (events: seq<SseEvent>)
    modifies mgr
    ensures var (id, t) := Resolve(old(mgr.sessions), requested, freshId, now);
      mgr.sessions == t && events == StreamEvents(t, id, message, requested, src, iso)
  {
    var id := ResolveSession(mgr, requested, freshId, now);
    var info := mgr.GetSessionInfo(id, iso);
    var after := mgr.GetSession(id);
    events := EmitFrames(id, info, after, message, requested, src);
  }

  /** An HTTP answer: a JSON body, or an error status with its detail. */
  datatype HttpResult = Response(body: map<string, Value>) | HttpError(status: int, detail: string)

  /** A stored message as the session endpoint lists it. */
  function MessageJson(m: ChatMessage, iso: int -> string): Value {
    Obj(map["id" := Str(m.id), "type" := Str(TypeName(m.msgType)), "content" := Str(m.content),
            "timestamp" := Str(iso(m.timestamp)), "metadata" := Obj(m.metadata)])
  }

  function MessagesJson(ms: seq<ChatMessage>, iso: int -> string): (r: seq<Value>)
    ensures |r| == |ms|
    ensures forall k :: 0 <= k < |ms| ==> r[k] == MessageJson(ms[k], iso)
  {
    if ms == [] then [] else [MessageJson(ms[0], iso)] + MessagesJson(ms[1..], iso)
  }

  function SessionBody(t: Table, id: string, iso: int -> string): map<string, Value>
    requires id in t
  {
    map["session_id" := Str(id), "session_info" := Obj(SessionInfo(t, id, iso).value),
        "messages" := List(MessagesJson(t[id].messages, iso))]
  }

  /** GET /chat/session/{id} as written: the 404 raised for an unknown id
      is caught by the handler's own `except Exception` and re-raised as a
      500 whose detail is the 404's text. */
  function GetSessionAsWritten(t: Table, id: string, iso: int -> string): (r: HttpResult)
    ensures r.HttpError? <==> id !in t
    ensures r.HttpError? ==> r.status == 500
    ensures r.Response? ==> r == GetSessionRoute(t, id, iso)
  {
    if id !in t then HttpError(500, "404: Session not found") else Response(SessionBody(t, id, iso))
  }

  /** An unknown session is reported as a server error, not as not found. */
  lemma UnknownSessionGives500(iso: int -> string)
    ensures GetSessionAsWritten(map[], "missing", iso) == HttpError(500, "404: Session not found")
  {
  }

  /** GET /chat/session/{id} as intended: 404 for an unknown id, the
      session summary and full history otherwise. */
  function GetSessionRoute(t: Table, id: string, iso: int -> string): (r: HttpResult)
    ensures r.HttpError? <==> id !in t
    ensures r.HttpError? ==> r == HttpError(404, "Session not found")
    ensures r.Response? ==> "session_info" in r.body && "messages" in r.body && r.body["messages"].List? &&
                            r.body["session_info"] == Obj(SessionInfo(t, id, iso).value) &&
                            r.body["messages"] == List(MessagesJson(t[id].messages, iso)) &&
                            (CounterInStep(t[id]) ==> |r.body["messages"].items| == t[id].totalMessages)
  {
    if id !in t then HttpError(404, "Session not found") else Response(SessionBody(t, id, iso))
  }

  /** The two versions differ only for unknown ids. */
  lemma GetSessionRoutesAgree(t: Table, id: string, iso: int -> string)
    ensures id in t ==> GetSessionAsWritten(t, id, iso) == GetSessionRoute(t, id, iso)
    ensures id !in t ==> GetSessionAsWritten(t, id, iso).status == 500 && GetSessionRoute(t, id, iso).status == 404
  {
  }

  /** DELETE /chat/session/{id}: the table afterwards and the answer. */
  function DeleteRoute(t: Table, id: string): (r: (Table, HttpResult))
    ensures r.1.HttpError? <==> id !in t
    ensures r.1.HttpError? ==> r.1 == HttpError(404, "Session not found") && r.0 == t
    ensures r.1.Response? ==> r.1.body == map["status" := Str("deleted"), "session_id" := Str(id)] && r.0 == t - {id}
  {
    var (t2, ok) := Deleted(t, id);
    if ok then (t2, Response(map["status" := Str("deleted"), "session_id" := Str(id)]))
    else (t2, HttpError(404, "Session not found"))
  }

  method DeleteSessionRoute(mgr: SessionManager, id: string) returns (r: HttpResult)
    modifies mgr
    ensures (mgr.sessions, r) == DeleteRoute(old(mgr.sessions), id)
  {
    var ok := mgr.DeleteSession(id);
    if ok {
      r := Response(map["status" := Str("deleted"), "session_id" := Str(id)]);
    } else {
      r := HttpError(404, "Session not found");
    }
  }

  /** POST /chat/session */
  method CreateSessionRoute(mgr: SessionManager, freshId: string, now: int, iso: int -> string) returns (r: HttpResult)
    modifies mgr
    ensures mgr.sessions == Created(old(mgr.sessions), freshId, now)
    ensures r == Response(map["session_id" := Str(freshId), "session_info" := Obj(SessionInfo(mgr.sessions, freshId, iso).value),
                              "status" := Str("created")])
  {
    var id := mgr.CreateSession(None, freshId, now);
    var info := mgr.GetSessionInfo(id, iso);
    r := Response(map["session_id" := Str(id), "session_info" := Obj(info.value), "status" := Str("created")]);
  }

  /** GET /chat/sessions */
  function ListSessions(t: Table, iso: int -> string): (r: map<string, Value>)
    ensures "total_sessions" in r && "sessions" in r && r["total_sessions"] == Int(|t|)
    ensures r["sessions"].Obj? && r["sessions"].fields.Keys == t.Keys
    ensures forall id :: id in t ==> id in r["sessions"].fields && r["sessions"].fields[id] == Obj(SessionInfo(t, id, iso).value)
  {
    var all := AllSessions(t, iso);
    assert |all.Keys| == |t.Keys|;
    map["total_sessions" := Int(|all|), "sessions" := Obj(map id | id in all :: Obj(all[id]))]
  }
}
