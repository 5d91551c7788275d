/** The wire and storage records of the chat API: chat messages, streaming
    chunks, and the request and response bodies, with the constraints and
    defaults their declarations impose. Identifiers and timestamps that the
    original draws from `uuid4` and the clock are explicit arguments. */
module Messages {
  import opened Wrappers
  import opened Values

  /** The three message kinds a `ChatMessage` may carry. */
  datatype MessageType = Human | Ai | System

  function TypeName(t: MessageType): string {
    match t
    case Human => "human"
    case Ai => "ai"
    case System => "system"
  }

  /** Validation of the `type` field: only "human", "ai" and "system" are
      accepted, each mapping back to its own name. */
  function ParseMessageType(s: string): (r: Result<MessageType, string>)
    ensures r.Ok? <==> s == "human" || s == "ai" || s == "system"
    ensures r.Ok? ==> TypeName(r.value) == s
  {
    if s == "human" then Ok(Human)
    else if s == "ai" then Ok(Ai)
    else if s == "system" then Ok(System)
    else Err("type must be one of 'human', 'ai', 'system'")
  }

  lemma ParseTypeName(t: MessageType)
    ensures ParseMessageType(TypeName(t)) == Ok(t)
  {
  }

  /** `ChatMessage`; `timestamp` is a clock reading in seconds. */
  datatype ChatMessage = ChatMessage(
    id: string,
    msgType: MessageType,
    content: string,
    timestamp: int,
    metadata: map<string, Value>)

  /** Building a `ChatMessage` with only the required fields: `id` and
      `timestamp` come from the generators, `metadata` defaults to empty. */
  function NewChatMessage(t: MessageType, content: string, freshId: string, now: int): (m: ChatMessage)
    ensures m.msgType == t && m.content == content
    ensures m.id == freshId && m.timestamp == now
    ensures m.metadata == map[]
  {
    ChatMessage(freshId, t, content, now, map[])
  }

  /** `StreamingChunk` */
  datatype StreamingChunk = StreamingChunk(
    content: string,
    chunkId: string,
    isFinal: bool,
    metadata: map<string, Value>)

  /** A chunk built from its content alone is not final and has no metadata. */
  function NewStreamingChunk(content: string, freshId: string): (c: StreamingChunk)
    ensures c.content == content && c.chunkId == freshId
    ensures !c.isFinal && c.metadata == map[]
  {
    StreamingChunk(content, freshId, false, map[])
  }

  const MaxMessageLength := 2000

  /** `ChatRequest` */
  datatype ChatRequest = ChatRequest(
    sessionId: Option<string>,
    message: string,
    userId: Option<string>)

  /** Validation of a request body: the message must have between 1 and 2000
      characters; `session_id` and `user_id` default to `None`. */
  function ValidateChatRequest(sessionId: Option<string>, message: string, userId: Option<string>): (r: Result<ChatRequest, string>)
    ensures r.Ok? <==> 1 <= |message| <= MaxMessageLength
    ensures r.Ok? ==> r.value.message == message && r.value.sessionId == sessionId && r.value.userId == userId
  {
    if |message| < 1 then Err("message must have at least 1 character")
    else if |message| > MaxMessageLength then Err("message must have at most 2000 characters")
    else Ok(ChatRequest(sessionId, message, userId))
  }

  /** A request that supplies only its message. */
  function MessageOnlyRequest(message: string): (r: Result<ChatRequest, string>)
    ensures r.Ok? ==> r.value.sessionId == None && r.value.userId == None
    ensures r.Ok? <==> 1 <= |message| <= MaxMessageLength
  {
    ValidateChatRequest(None, message, None)
  }

  /** The `status` of a `ChatResponse`. */
  datatype ResponseStatus = Success | Error | Processing

  function ResponseStatusName(s: ResponseStatus): string {
    match s
    case Success => "success"
    case Error => "error"
    case Processing => "processing"
  }

  /** Validation of `ChatResponse.status`: absent means "success"; otherwise
      only the three names are accepted. */
  function ParseResponseStatus(s: Option<string>): (r: Result<ResponseStatus, string>)
    ensures s == None ==> r == Ok(Success)
    ensures s.Some? ==> (r.Ok? <==> s.value in {"success", "error", "processing"})
    ensures s.Some? && r.Ok? ==> ResponseStatusName(r.value) == s.value
  {
    match s
    case None => Ok(Success)
    case Some(name) =>
      if name == "success" then Ok(Success)
      else if name == "error" then Ok(Error)
      else if name == "processing" then Ok(Processing)
      else Err("status must be one of 'success', 'error', 'processing'")
  }

  lemma ParseResponseStatusName(s: ResponseStatus)
    ensures ParseResponseStatus(Some(ResponseStatusName(s))) == Ok(s)
  {
  }

  /** `ChatResponse` */
  datatype ChatResponse = ChatResponse(
    sessionId: string,
    message: ChatMessage,
    status: ResponseStatus,
    processingTimeMs: Option<int>,
    errorMessage: Option<string>)

  /** The `status` of a `StreamingResponse`. */
  datatype StreamStatus = Streaming | Completed | Failed

  function StreamStatusName(s: StreamStatus): string {
    match s
    case Streaming => "streaming"
    case Completed => "completed"
    case Failed => "error"
  }

  /** Validation of `StreamingResponse.status`: absent means "streaming";
      otherwise only the three names are accepted. */
  function ParseStreamStatus(s: Option<string>): (r: Result<StreamStatus, string>)
    ensures s == None ==> r == Ok(Streaming)
    ensures s.Some? ==> (r.Ok? <==> s.value in {"streaming", "completed", "error"})
    ensures s.Some? && r.Ok? ==> StreamStatusName(r.value) == s.value
  {
    match s
    case None => Ok(Streaming)
    case Some(name) =>
      if name == "streaming" then Ok(Streaming)
      else if name == "completed" then Ok(Completed)
      else if name == "error" then Ok(Failed)
      else Err("status must be one of 'streaming', 'completed', 'error'")
  }

  lemma ParseStreamStatusName(s: StreamStatus)
    ensures ParseStreamStatus(Some(StreamStatusName(s))) == Ok(s)
  {
  }

  /** `StreamingResponse` */
  datatype StreamingResponse = StreamingResponse(
    sessionId: string,
    chunk: StreamingChunk,
    status: StreamStatus,
    totalChunks: Option<int>,
    currentChunk: Option<int>)
}
