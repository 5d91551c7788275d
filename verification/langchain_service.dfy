/** The LangChain-based LLM service: the per-session trace-run table, the
    lazily created chat-model clients and their selection by model name,
    the history conversion, the tracing configuration, and the parts of
    `chat_completion`/`stream_completion` around the network call. The
    call itself is an input: the reply (or the raw error) it produced. */
module LangchainService {
  import opened Wrappers
  import opened Values
  import opened Messages
  import opened Converters
  import opened Exceptions
  import LlmService

  /** `get_or_create_session_run` on a run table: the stored run id, or the
      fresh one stored under the session. */
  function RunFor(runs: map<string, string>, sessionId: string, freshRunId: string): (r: (map<string, string>, string))
    ensures sessionId in runs ==> r == (runs, runs[sessionId])
    ensures sessionId !in runs ==> r.1 == freshRunId && r.0 == runs[sessionId := freshRunId]
    ensures r.0.Keys == runs.Keys + {sessionId} && r.0[sessionId] == r.1
    ensures forall k :: k in runs && k != sessionId ==> r.0[k] == runs[k]
  {
    if sessionId in runs then (runs, runs[sessionId]) else (runs[sessionId := freshRunId], freshRunId)
  }

  /** Asking again for the same session returns the same run id and leaves
      the table as it is, whatever fresh id would have been minted. */
  lemma RunForStable(runs: map<string, string>, sessionId: string, fresh1: string, fresh2: string)
    ensures var (t1, id1) := RunFor(runs, sessionId, fresh1);
      RunFor(t1, sessionId, fresh2) == (t1, id1)
  {
  }

  /** `SessionTracker`: session id to parent run id. */
  class SessionTracker {
    var runs: map<string, string>

    constructor ()
      ensures runs == map[]
    {
      runs := map[];
    }

    /** `get_or_create_session_run`; `freshRunId` stands for `uuid.uuid4()`. */
    method GetOrCreateSessionRun(sessionId: string, freshRunId: string) returns (runId: string)
      modifies this
      ensures (runs, runId) == RunFor(old(runs), sessionId, freshRunId)
    {
      if sessionId !in runs {
        runs := runs[sessionId := freshRunId];
      }
      runId := runs[sessionId];
    }

    /** `end_session_run`: removes the session's run, if there is one. */
    method EndSessionRun(sessionId: string)
      modifies this
      ensures runs == old(runs) - {sessionId}
      ensures sessionId !in old(runs) ==> runs == old(runs)
    {
      if sessionId in runs {
        runs := runs - {sessionId};
      }
    }
  }

  /** A `ChatOpenAI` client: its model and the keyword arguments it was
      built with. */
  class ChatModel {
    const model: string
    const params: map<string, Value>

    constructor (model: string, params: map<string, Value>)
      ensures this.model == model && this.params == params
    {
      this.model := model;
      this.params := params;
    }
  }

  /** `base_config`; a missing key is `None`. */
  function BaseConfig(apiKey: Option<string>): (c: map<string, Value>)
    ensures c.Keys == {"base_url", "api_key", "temperature", "max_tokens", "top_p", "frequency_penalty",
                       "presence_penalty", "timeout", "max_retries"}
    ensures c["api_key"] == OptStr(apiKey) && c["base_url"] == Str("https://openrouter.ai/api/v1")
  {
    map[
      "base_url" := Str("https://openrouter.ai/api/v1"),
      "api_key" := OptStr(apiKey),
      "temperature" := Real(0.7),
      "max_tokens" := Int(2000),
      "top_p" := Real(0.9),
      "frequency_penalty" := Real(0.0),
      "presence_penalty" := Real(0.0),
      "timeout" := Real(30.0),
      "max_retries" := Int(2)]
  }

  /** Which client `get_llm_by_name` hands out. */
  datatype Route = DefaultRoute | CreatorRoute | GamemasterRoute | CustomRoute(name: string)

  /** The if-chain of `get_llm_by_name`: no (or an empty) name picks the
      default client, the creator's and the gamemaster's configured names
      pick theirs, any other name a new client for it. */
  function RouteOf(modelName: Option<string>, creator: string, gamemaster: string): Route {
    if modelName.None? || modelName.value == [] then DefaultRoute
    else if modelName.value == creator then CreatorRoute
    else if modelName.value == gamemaster then GamemasterRoute
    else CustomRoute(modelName.value)
  }

  /** The model of the client a route leads to. */
  function RouteModel(r: Route, default: string, creator: string, gamemaster: string): string {
    match r
    case DefaultRoute => default
    case CreatorRoute => creator
    case GamemasterRoute => gamemaster
    case CustomRoute(name) => name
  }

  /** The client chosen for a name always runs the model that name asks
      for, or the default model when no name is given: the same model
      `model or llm_default` reports. */
  lemma RouteRunsRequestedModel(modelName: Option<string>, default: string, creator: string, gamemaster: string)
    ensures RouteModel(RouteOf(modelName, creator, gamemaster), default, creator, gamemaster) ==
            LlmService.ModelOr(modelName, default)
    ensures RouteOf(modelName, creator, gamemaster).CustomRoute? <==>
            modelName.Some? && modelName.value !in {[], creator, gamemaster}
  {
  }

  /** The class `_convert_messages_to_langchain` picks for a type string:
      Human, AI or System for the three known names, Human for any other. */
  function ClassOfName(typeName: string): (c: LcClass)
    ensures c == HumanClass <==> typeName != "ai" && typeName != "system"
    ensures c == AiClass <==> typeName == "ai"
    ensures c == SystemClass <==> typeName == "system"
  {
    if typeName == "human" then HumanClass
    else if typeName == "ai" then AiClass
    else if typeName == "system" then SystemClass
    else HumanClass
  }

  /** One converted message: only the content is carried over. */
  function LangchainOf(m: ChatMessage): LcMessage {
    LcMessage(ClassOfName(TypeName(m.msgType)), m.content, map[])
  }

  /** For a stored message the conversion picks the same class as
      `pydantic_to_langchain` and keeps the content, but drops the metadata
      that `pydantic_to_langchain` keeps. */
  lemma LangchainOfAgrees(m: ChatMessage)
    ensures LangchainOf(m).cls == PydanticToLangchain(m).cls
    ensures LangchainOf(m).content == PydanticToLangchain(m).content
    ensures LangchainOf(m).additionalKwargs == map[]
  {
    match m.msgType
    case Human =>
    case Ai =>
    case System =>
  }

  /** `_convert_messages_to_langchain` */
  method ConvertMessagesToLangchain(messages: seq<ChatMessage>) returns (r: seq<LcMessage>)
    ensures |r| == |messages|
    ensures forall i :: 0 <= i < |messages| ==> r[i] == LangchainOf(messages[i])
  {
    r := [];
    var i := 0;
    while i < |messages|
      invariant 0 <= i <= |messages| && |r| == i
      invariant forall j :: 0 <= j < i ==> r[j] == LangchainOf(messages[j])
    {
      var msg := messages[i];
      var name := TypeName(msg.msgType);
      if name == "human" {
        r := r + [LcMessage(HumanClass, msg.content, map[])];
      } else if name == "ai" {
        r := r + [LcMessage(AiClass, msg.content, map[])];
      } else if name == "system" {
        r := r + [LcMessage(SystemClass, msg.content, map[])];
      } else {
        r := r + [LcMessage(HumanClass, msg.content, map[])];
      }
      i := i + 1;
    }
  }

  /** `session_id` is truthy: given and not empty. */
  predicate SessionGiven(sessionId: Option<string>) {
    sessionId.Some? && sessionId.value != []
  }

  /** The tracing `config` of a call: tags and metadata when a session id
      is given and tracing is on, empty otherwise. The streaming call tags
      itself differently and adds a `streaming` flag. */
  function TracingConfig(sessionId: Option<string>, tracing: bool, messageCount: int, modelName: string,
                         streaming: bool): (c: map<string, Value>)
    ensures !(SessionGiven(sessionId) && tracing) ==> c == map[]
    ensures SessionGiven(sessionId) && tracing ==>
      c.Keys == {"tags", "metadata"} &&
      c["tags"] == List([Str("session:" + sessionId.value),
                         Str(if streaming then "streaming_completion" else "chat_completion")]) &&
      c["metadata"].Obj? &&
      c["metadata"].fields.Keys == {"session_id", "message_count", "model"} + (if streaming then {"streaming"} else {}) &&
      c["metadata"].fields["session_id"] == Str(sessionId.value) &&
      c["metadata"].fields["message_count"] == Int(messageCount) &&
      c["metadata"].fields["model"] == Str(modelName)
  {
    if SessionGiven(sessionId) && tracing then
      var meta := map["session_id" := Str(sessionId.value), "message_count" := Int(messageCount),
                      "model" := Str(modelName)];
      map["tags" := List([Str("session:" + sessionId.value),
                          Str(if streaming then "streaming_completion" else "chat_completion")]),
          "metadata" := Obj(if streaming then meta["streaming" := Bool(true)] else meta)]
    else map[]
  }

  /** `_convert_response_to_chatmessage`: an AI message with the reply's
      content whose metadata is the model name and the `langchain_response`
      flag, overridden by the reply's own metadata, overridden in turn by
      the extra metadata. */
  function ConvertResponse(content: string, responseMetadata: map<string, Value>, modelName: string,
                           extra: map<string, Value>, freshId: string, now: int): (m: ChatMessage)
    ensures m.msgType == Ai && m.content == content && m.id == freshId && m.timestamp == now
    ensures m.metadata.Keys == {"model", "langchain_response"} + responseMetadata.Keys + extra.Keys
    ensures forall k :: k in extra ==> m.metadata[k] == extra[k]
    ensures forall k :: k in responseMetadata && k !in extra ==> m.metadata[k] == responseMetadata[k]
    ensures "model" !in responseMetadata && "model" !in extra ==> m.metadata["model"] == Str(modelName)
  {
    var metadata := map["model" := Str(modelName), "langchain_response" := Bool(true)] + responseMetadata + extra;
    CreateAiMessage(content, Some(metadata), freshId, now)
  }

  /** What the chat-model call produced: the reply's content and its
      `response_metadata`, or the raw error it raised. */
  datatype Reply = Reply(content: string, metadata: map<string, Value>)

  /** The `context` of a failed call. */
  function FailureContext(modelName: string, elapsed: Value, sessionId: Option<string>, streaming: bool): (c: map<string, Value>)
    ensures c.Keys == {"model_name", "duration", "session_id", if streaming then "langchain_streaming_error" else "langchain_error"}
    ensures c["model_name"] == Str(modelName) && c["duration"] == elapsed && c["session_id"] == OptStr(sessionId)
  {
    var flag := if streaming then "langchain_streaming_error" else "langchain_error";
    map["model_name" := Str(modelName), "duration" := elapsed,
        flag := Bool(true),
        "session_id" := OptStr(sessionId)]
  }

  /** A failed call whose error names a missing model reports the model
      the call used, so the error tells the caller which name was wrong. */
  lemma FailureNamesModel(e: RawError, modelName: string, elapsed: Value, sessionId: Option<string>, streaming: bool,
                          renderOther: Value -> string)
    requires ClassifyError(e) == ModelNotFound
    ensures CreateLlmException(e, FailureContext(modelName, elapsed, sessionId, streaming), renderOther).errorDetails["model_name"] ==
            Str(modelName)
  {
    var c := FailureContext(modelName, elapsed, sessionId, streaming);
    assert GetOr(c, "model_name", Str("unknown")) == Str(modelName);
  }

  /** The non-empty contents of the streamed chunks, in order. */
  function NonEmpty(parts: seq<string>): (r: seq<string>)
    ensures forall i :: 0 <= i < |r| ==> r[i] != []
    ensures |r| <= |parts|
  {
    if parts == [] then []
    else NonEmpty(parts[..|parts| - 1]) + (if parts[|parts| - 1] != [] then [parts[|parts| - 1]] else [])
  }

  /** The chunk loop of `stream_completion`: passes on each non-empty
      content and counts them. */
  method PassNonEmpty(parts: seq<string>) returns (chunks: seq<string>, chunkCount: int)
    ensures chunks == NonEmpty(parts) && chunkCount == |chunks|
  {
    chunks := [];
    chunkCount := 0;
    var i := 0;
    while i < |parts|
      invariant 0 <= i <= |parts| && chunks == NonEmpty(parts[..i]) && chunkCount == |chunks|
    {
      assert parts[..i + 1][..i] == parts[..i];
      if parts[i] != [] {
        chunkCount := chunkCount + 1;
        chunks := chunks + [parts[i]];
      }
      i := i + 1;
    }
    assert parts[..i] == parts;
  }

  /** Dropping empty chunks changes nothing in the text they spell. */
  lemma {:induction false} NonEmptyKeepsText(parts: seq<string>)
    ensures Flatten(NonEmpty(parts)) == Flatten(parts)
  {
    if parts != [] {
      var init := parts[..|parts| - 1];
      var last := parts[|parts| - 1];
      NonEmptyKeepsText(init);
      FlattenSnoc(NonEmpty(init), last);
      FlattenSnoc(init, last);
      if last == [] {
        assert NonEmpty(parts) == NonEmpty(init);
      }
    }
  }

  /** The chunks written one after the other. */
  function Flatten(parts: seq<string>): string {
    if parts == [] then [] else Flatten(parts[..|parts| - 1]) + parts[|parts| - 1]
  }

  lemma FlattenSnoc(parts: seq<string>, last: string)
    ensures Flatten(parts + [last]) == Flatten(parts) + last
  {
    assert (parts + [last])[..|parts|] == parts;
  }

  /** `initialize` as written: when the key is missing the handler builds
      `LLMServiceException` with a message only, and since that class's
      constructor also requires an error type, that call itself fails with
      a `TypeError` instead of raising the service exception. */
  datatype InitFailure = ServiceFailure(exc: LlmServiceException) | ConstructorTypeError(text: string)

  const MissingErrorType := "LLMServiceException.__init__() missing 1 required positional argument: 'error_type'"

  function InitializeAsWritten(initialized: bool, apiKey: Option<string>): (r: Option<InitFailure>)
    ensures r.Some? <==> !initialized && (apiKey.None? || apiKey.value == [])
  {
    if initialized then None
    else if apiKey.None? || apiKey.value == [] then Some(ConstructorTypeError(MissingErrorType))
    else None
  }

  /** No uninitialised service without a key ever reports its failure as a
      service exception. */
  lemma MissingKeyRaisesTypeError(apiKey: Option<string>)
    requires apiKey.None? || apiKey.value == []
    ensures var r := InitializeAsWritten(false, apiKey);
      r.Some? && !r.value.ServiceFailure? && r.value.text == MissingErrorType
  {
  }

  /** The exception the key check raises. */
  function KeyNotConfigured(): LlmServiceException {
    ApiKeyInvalidException().(message := "OpenRouter API key not configured")
  }

  /** `initialize` with the wrapping exception given an error type and
      nothing else: a missing key yields a non-recoverable configuration
      error whose message names the initialisation failure and quotes the
      key error; like the call as written, it passes no original error. */
  function Initialize(initialized: bool, apiKey: Option<string>): (r: Option<LlmServiceException>)
    ensures r.Some? <==> !initialized && (apiKey.None? || apiKey.value == [])
    ensures r.Some? ==> r.value.errorType == ConfigurationError && !r.value.recoverable
  {
    if initialized then None
    else if apiKey.None? || apiKey.value == [] then
      Some(LlmServiceException("Service initialization failed: " + ExceptionText(KeyNotConfigured()),
                               ConfigurationError, None, map[], false, Null))
    else None
  }

  /** The failure's message names the initialisation failure and quotes
      the key error; no original error and no details are attached. */
  lemma InitializeMessage(apiKey: Option<string>)
    requires apiKey.None? || apiKey.value == []
    ensures var r := Initialize(false, apiKey);
      r.Some? && r.value.message == "Service initialization failed: " + ExceptionText(KeyNotConfigured()) &&
      r.value.originalError == None && r.value.errorDetails == map[]
  {
  }

  /** The corrected initialisation fails exactly when the written one
      does, and then with a service exception instead of a `TypeError`. */
  lemma InitializeCorrects(initialized: bool, apiKey: Option<string>)
    ensures InitializeAsWritten(initialized, apiKey).Some? <==> Initialize(initialized, apiKey).Some?
    ensures InitializeAsWritten(initialized, apiKey).Some? ==> InitializeAsWritten(initialized, apiKey).value.ConstructorTypeError?
  {
  }

  /** `LangChainLLMService` */
  class LangchainLlmService {
    const apiKey: Option<string>
    const llmDefault: string
    const llmCreator: string
    const llmGamemaster: string
    const tracing: bool
    const baseConfig: map<string, Value>
    const tracker: SessionTracker
    var initialized: bool
    var defaultLlm: Option<ChatModel>
    var creatorLlm: Option<ChatModel>
    var gamemasterLlm: Option<ChatModel>

    /** Every cached client runs its configured model with the base
        configuration. */
    predicate Valid()
      reads this
    {
      baseConfig == BaseConfig(apiKey) &&
      (defaultLlm.Some? ==> defaultLlm.value.model == llmDefault && defaultLlm.value.params == baseConfig) &&
      (creatorLlm.Some? ==> creatorLlm.value.model == llmCreator && creatorLlm.value.params == baseConfig) &&
      (gamemasterLlm.Some? ==> gamemasterLlm.value.model == llmGamemaster && gamemasterLlm.value.params == baseConfig)
    }

    constructor (apiKey: Option<string>, llmDefault: string, llmCreator: string, llmGamemaster: string, tracing: bool)
      ensures Valid() && fresh(tracker) && tracker.runs == map[]
      ensures this.apiKey == apiKey && this.llmDefault == llmDefault && this.llmCreator == llmCreator
      ensures this.llmGamemaster == llmGamemaster && this.tracing == tracing
      ensures !initialized && defaultLlm == None && creatorLlm == None && gamemasterLlm == None
    {
      this.apiKey := apiKey;
      this.llmDefault := llmDefault;
      this.llmCreator := llmCreator;
      this.llmGamemaster := llmGamemaster;
      this.tracing := tracing;
      baseConfig := BaseConfig(apiKey);
      tracker := new SessionTracker();
      initialized := false;
      defaultLlm := None;
      creatorLlm := None;
      gamemasterLlm := None;
    }

    /** `initialize`, with the wrapping exception given an error type. */
    method Init() returns (err: Option<LlmServiceException>)
      modifies this
      ensures err == Initialize(old(initialized), apiKey)
      ensures initialized == (old(initialized) || err.None?)
      ensures defaultLlm == old(defaultLlm) && creatorLlm == old(creatorLlm) && gamemasterLlm == old(gamemasterLlm)
    {
      err := Initialize(initialized, apiKey);
      if !initialized && err.None? {
        initialized := true;
      }
    }

    /** `get_default_llm`: built on first use, the same client afterwards. */
    method GetDefaultLlm() returns (llm: ChatModel)
      requires Valid()
      modifies this
      ensures Valid() && defaultLlm == Some(llm)
      ensures old(defaultLlm).Some? ==> llm == old(defaultLlm).value
      ensures old(defaultLlm).None? ==> fresh(llm)
      ensures llm.model == llmDefault && llm.params == baseConfig
      ensures creatorLlm == old(creatorLlm) && gamemasterLlm == old(gamemasterLlm) && initialized == old(initialized)
    {
      if defaultLlm.None? {
        var c := new ChatModel(llmDefault, baseConfig);
        defaultLlm := Some(c);
      }
      llm := defaultLlm.value;
    }

    /** `get_creator_llm` */
    method GetCreatorLlm() returns (llm: ChatModel)
      requires Valid()
      modifies this
      ensures Valid() && creatorLlm == Some(llm)
      ensures old(creatorLlm).Some? ==> llm == old(creatorLlm).value
      ensures old(creatorLlm).None? ==> fresh(llm)
      ensures llm.model == llmCreator && llm.params == baseConfig
      ensures defaultLlm == old(defaultLlm) && gamemasterLlm == old(gamemasterLlm) && initialized == old(initialized)
    {
      if creatorLlm.None? {
        var c := new ChatModel(llmCreator, baseConfig);
        creatorLlm := Some(c);
      }
      llm := creatorLlm.value;
    }

    /** `get_gamemaster_llm` */
    method GetGamemasterLlm() returns (llm: ChatModel)
      requires Valid()
      modifies this
      ensures Valid() && gamemasterLlm == Some(llm)
      ensures old(gamemasterLlm).Some? ==> llm == old(gamemasterLlm).value
      ensures old(gamemasterLlm).None? ==> fresh(llm)
      ensures llm.model == llmGamemaster && llm.params == baseConfig
      ensures defaultLlm == old(defaultLlm) && creatorLlm == old(creatorLlm) && initialized == old(initialized)
    {
      if gamemasterLlm.None? {
        var c := new ChatModel(llmGamemaster, baseConfig);
        gamemasterLlm := Some(c);
      }
      llm := gamemasterLlm.value;
    }

    /** The client caches after a call that went through `route`, given
        the caches `d0`, `c0` and `g0` before it: the route's own cache holds
        a client, the one it held already if any, and the other caches are
        unchanged. */
    predicate CachesAfter(route: Route, d0: Option<ChatModel>, c0: Option<ChatModel>, g0: Option<ChatModel>)
      reads this
    {
      (if route == DefaultRoute then defaultLlm.Some? && (d0.Some? ==> defaultLlm == d0) else defaultLlm == d0) &&
      (if route == CreatorRoute then creatorLlm.Some? && (c0.Some? ==> creatorLlm == c0) else creatorLlm == c0) &&
      (if route == GamemasterRoute then gamemasterLlm.Some? && (g0.Some? ==> gamemasterLlm == g0) else gamemasterLlm == g0)
    }

    /** `get_llm_by_name`: the client of `RouteOf`, cached for the three
        configured roles and new for any other name. */
    method GetLlmByName(modelName: Option<string>) returns (llm: ChatModel)
      requires Valid()
      modifies this
      ensures Valid() && initialized == old(initialized)
      ensures llm.model == RouteModel(RouteOf(modelName, llmCreator, llmGamemaster), llmDefault, llmCreator, llmGamemaster)
      ensures llm.params == baseConfig
      ensures RouteOf(modelName, llmCreator, llmGamemaster) == DefaultRoute ==> defaultLlm == Some(llm)
      ensures RouteOf(modelName, llmCreator, llmGamemaster) == CreatorRoute ==> creatorLlm == Some(llm)
      ensures RouteOf(modelName, llmCreator, llmGamemaster) == GamemasterRoute ==> gamemasterLlm == Some(llm)
      ensures RouteOf(modelName, llmCreator, llmGamemaster).CustomRoute? ==> fresh(llm)
      ensures CachesAfter(RouteOf(modelName, llmCreator, llmGamemaster), old(defaultLlm), old(creatorLlm), old(gamemasterLlm))
    {
      if modelName.None? || modelName.value == [] {
        llm := GetDefaultLlm();
      } else if modelName.value == llmCreator {
        llm := GetCreatorLlm();
      } else if modelName.value == llmGamemaster {
        llm := GetGamemasterLlm();
      } else {
        llm := new ChatModel(modelName.value, baseConfig);
      }
    }

    /** The client and model name a call uses: the client `get_llm_by_name`
        gives for the requested model, replaced by a new client with the
        base configuration overridden by the extra keyword arguments when
        any are given. */
    method SelectLlm(model: Option<string>, kwargs: map<string, Value>) returns (llm: ChatModel, modelName: string)
      requires Valid()
      modifies this
      ensures Valid() && initialized == old(initialized)
      ensures modelName == LlmService.ModelOr(model, llmDefault) && llm.model == modelName
      ensures kwargs == map[] ==> llm.params == baseConfig
      ensures kwargs != map[] ==> fresh(llm) && llm.params == baseConfig + kwargs
      ensures CachesAfter(RouteOf(model, llmCreator, llmGamemaster), old(defaultLlm), old(creatorLlm), old(gamemasterLlm))
    {
      llm := GetLlmByName(model);
      RouteRunsRequestedModel(model, llmDefault, llmCreator, llmGamemaster);
      modelName := if model.Some? && model.value != [] then model.value else llmDefault;
      if kwargs != map[] {
        llm := new ChatModel(modelName, baseConfig + kwargs);
      }
    }

    /** The set-up shared by `chat_completion` and `stream_completion`
        before the call: client and model name, converted history, and the
        tracing configuration, registering the session's run when tracing. */
    method PrepareCall(messages: seq<ChatMessage>, model: Option<string>, sessionId: Option<string>,
                       kwargs: map<string, Value>, streaming: bool, freshRunId: string)
      returns (llm: ChatModel, modelName: string, lcMessages: seq<LcMessage>, config: map<string, Value>)
      requires Valid()
      requires "model" !in kwargs
      modifies this, tracker
      ensures Valid() && initialized == old(initialized)
      ensures modelName == LlmService.ModelOr(model, llmDefault) && llm.model == modelName
      ensures kwargs == map[] ==> llm.params == baseConfig
      ensures kwargs != map[] ==> fresh(llm) && llm.params == baseConfig + kwargs
      ensures |lcMessages| == |messages| && forall i :: 0 <= i < |messages| ==> lcMessages[i] == LangchainOf(messages[i])
      ensures config == TracingConfig(sessionId, tracing, |messages|, modelName, streaming)
      ensures SessionGiven(sessionId) && tracing ==> tracker.runs == RunFor(old(tracker.runs), sessionId.value, freshRunId).0
      ensures !(SessionGiven(sessionId) && tracing) ==> tracker.runs == old(tracker.runs)
      ensures CachesAfter(RouteOf(model, llmCreator, llmGamemaster), old(defaultLlm), old(creatorLlm), old(gamemasterLlm))
    {
      llm, modelName := SelectLlm(model, kwargs);
      lcMessages := ConvertMessagesToLangchain(messages);
      if SessionGiven(sessionId) && tracing {
        var _ := tracker.GetOrCreateSessionRun(sessionId.value, freshRunId);
      }
      config := TracingConfig(sessionId, tracing, |messages|, modelName, streaming);
    }

    /** `chat_completion`: `reply` is what the client's call produced and
        `elapsed` the `time.time() - start_time` readings. */
    method ChatCompletion(messages: seq<ChatMessage>, model: Option<string>, sessionId: Option<string>,
                          kwargs: map<string, Value>, reply: Result<Reply, RawError>, freshRunId: string,
                          freshId: string, now: int, elapsed: Value, renderOther: Value -> string)
      returns (r: Result<ChatMessage, LlmServiceException>)
      requires Valid()
      requires "model" !in kwargs
      modifies this, tracker
      ensures Valid()
      ensures Initialize(old(initialized), apiKey).Some? ==>
                r == Err(Initialize(old(initialized), apiKey).value) &&
                defaultLlm == old(defaultLlm) && creatorLlm == old(creatorLlm) && gamemasterLlm == old(gamemasterLlm) &&
                tracker.runs == old(tracker.runs)
      ensures Initialize(old(initialized), apiKey).None? ==>
        CachesAfter(RouteOf(model, llmCreator, llmGamemaster), old(defaultLlm), old(creatorLlm), old(gamemasterLlm)) &&
        (SessionGiven(sessionId) && tracing ==> tracker.runs == RunFor(old(tracker.runs), sessionId.value, freshRunId).0) &&
        (!(SessionGiven(sessionId) && tracing) ==> tracker.runs == old(tracker.runs))
      ensures Initialize(old(initialized), apiKey).None? ==>
        initialized &&
        (reply.Ok? ==> r == Ok(ConvertResponse(reply.value.content, reply.value.metadata,
                                               LlmService.ModelOr(model, llmDefault),
                                               map["completion_time" := elapsed, "session_id" := OptStr(sessionId)],
                                               freshId, now))) &&
        (reply.Err? ==> r == Err(CreateLlmException(reply.error,
                                                    FailureContext(LlmService.ModelOr(model, llmDefault), elapsed, sessionId, false),
                                                    renderOther)))
    {
      if !initialized {
        var err := Init();
        if err.Some? {
          return Err(err.value);
        }
      }
      var llm, modelName, lcMessages, config := PrepareCall(messages, model, sessionId, kwargs, false, freshRunId);
      match reply {
        case Ok(resp) =>
          r := Ok(ConvertResponse(resp.content, resp.metadata, modelName,
                                  map["completion_time" := elapsed, "session_id" := OptStr(sessionId)], freshId, now));
        case Err(e) =>
          r := Err(CreateLlmException(e, FailureContext(modelName, elapsed, sessionId, false), renderOther));
      }
    }

    /** `stream_completion`: `parts` are the contents of the chunks the
        client streamed before `failure` (if any) ended the stream; only
        non-empty contents are passed on, in order. */
    method StreamCompletion(messages: seq<ChatMessage>, model: Option<string>, sessionId: Option<string>,
                            kwargs: map<string, Value>, parts: seq<string>, failure: Option<RawError>,
                            freshRunId: string, elapsed: Value, renderOther: Value -> string)
      returns (chunks: seq<string>, error: Option<LlmServiceException>)
      requires Valid()
      requires "model" !in kwargs
      modifies this, tracker
      ensures Valid()
      ensures Initialize(old(initialized), apiKey).Some? ==>
                chunks == [] && error == Initialize(old(initialized), apiKey) &&
                defaultLlm == old(defaultLlm) && creatorLlm == old(creatorLlm) && gamemasterLlm == old(gamemasterLlm) &&
                tracker.runs == old(tracker.runs)
      ensures Initialize(old(initialized), apiKey).None? ==>
        CachesAfter(RouteOf(model, llmCreator, llmGamemaster), old(defaultLlm), old(creatorLlm), old(gamemasterLlm)) &&
        (SessionGiven(sessionId) && tracing ==> tracker.runs == RunFor(old(tracker.runs), sessionId.value, freshRunId).0) &&
        (!(SessionGiven(sessionId) && tracing) ==> tracker.runs == old(tracker.runs))
      ensures Initialize(old(initialized), apiKey).None? ==>
        initialized && chunks == NonEmpty(parts) &&
        (failure.None? ==> error.None?) &&
        (failure.Some? ==> error == Some(CreateLlmException(failure.value,
                                                             FailureContext(LlmService.ModelOr(model, llmDefault), elapsed, sessionId, true),
                                                             renderOther)))
    {
      chunks := [];
      error := None;
      if !initialized {
        error := Init();
        if error.Some? {
          return;
        }
      }
      var llm, modelName, lcMessages, config := PrepareCall(messages, model, sessionId, kwargs, true, freshRunId);
      var chunkCount;
      chunks, chunkCount := PassNonEmpty(parts);
      if failure.Some? {
        error := Some(CreateLlmException(failure.value, FailureContext(modelName, elapsed, sessionId, true), renderOther));
      }
    }

    /** `end_session` */
    method EndSession(sessionId: string)
      modifies tracker
      ensures tracker.runs == old(tracker.runs) - {sessionId}
    {
      tracker.EndSessionRun(sessionId);
    }
  }

  /** Asking twice for the same configured name gives the same client;
      any other name gets a new client each time. */
  method CachedClientReused(s: LangchainLlmService, modelName: Option<string>) returns (a: ChatModel, b: ChatModel)
    requires s.Valid()
    modifies s
    ensures !RouteOf(modelName, s.llmCreator, s.llmGamemaster).CustomRoute? ==> a == b
    ensures RouteOf(modelName, s.llmCreator, s.llmGamemaster).CustomRoute? ==> a != b
  {
    a := s.GetLlmByName(modelName);
    b := s.GetLlmByName(modelName);
  }
}
