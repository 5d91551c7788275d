/** The phase-1 graph nodes: the router that decides whether a turn is due,
    the generic chat node (repair of the history, one LLM call, one reply or
    one error message) and the start node that greets a new session. The
    nodes change the `ChatState` they are given and return the fields the
    graph merges back into it. */
module Nodes {
  import opened Wrappers
  import opened Values
  import opened Messages
  import opened Converters
  import opened State
  import opened Exceptions

  /** The three edges out of the router. */
  datatype Route = End | Chat | Wait

  function RouteName(r: Route): string {
    match r
    case End => "end"
    case Chat => "chat"
    case Wait => "wait"
  }

  /** `last_user_message` is truthy: present and not empty. */
  predicate HasUserInput(s: StateRecord) {
    s.lastUserMessage.Some? && s.lastUserMessage.value != []
  }

  /** `should_continue` */
  function ShouldContinue(s: StateRecord): (r: Route)
    ensures r == End <==> !s.active
    ensures r == Chat <==> s.active && HasUserInput(s) && s.processing
    ensures r == Wait <==> s.active && !(HasUserInput(s) && s.processing)
  {
    if !s.active then End
    else if HasUserInput(s) && s.processing then Chat
    else Wait
  }

  /** The route depends on nothing but activity, the last user message and
      the processing flag. */
  lemma ShouldContinueReadsThreeFields(s: StateRecord, t: StateRecord)
    requires s.active == t.active && s.lastUserMessage == t.lastUserMessage && s.processing == t.processing
    ensures ShouldContinue(s) == ShouldContinue(t)
  {
  }

  /** The clock readings and fresh ids a node run uses: `now` for message
      timestamps and `last_updated`, `nowIso` for the ISO time stamps put
      in the metadata, `userMessageId` for a repaired user message and
      `replyId` for a message the node writes itself. */
  datatype Env = Env(now: int, nowIso: string, userMessageId: string, replyId: string)

  /** What the chat-completion call does: return the reply message, raise
      the service exception, or raise anything else (its `str()`). */
  datatype ChatOutcome =
    | Reply(message: ChatMessage)
    | ServiceFailure(exc: LlmServiceException)
    | Crash(text: string)

  /** The dict a node returns; a `None` field is not in the dict. */
  datatype NodeUpdate = NodeUpdate(
    messages: Option<seq<ChatMessage>>,
    processing: bool,
    active: Option<bool>,
    lastUpdated: Option<int>,
    totalMessages: Option<int>,
    metadata: Option<map<string, Value>>)

  /** How the graph merges a node's dict into the state. */
  function Apply(s: StateRecord, u: NodeUpdate): (r: StateRecord)
    ensures r.processing == u.processing
    ensures u.messages.Some? ==> r.messages == u.messages.value
    ensures u.messages.None? ==> r.messages == s.messages
  {
    s.(messages := u.messages.GetOr(s.messages),
       processing := u.processing,
       active := u.active.GetOr(s.active),
       lastUpdated := u.lastUpdated.GetOr(s.lastUpdated),
       totalMessages := u.totalMessages.GetOr(s.totalMessages),
       metadata := u.metadata.GetOr(s.metadata))
  }

  /** The dict of a node that finished a turn: history, counter, clock and
      metadata, with `processing` off. */
  function Finished(s: StateRecord, metadata: map<string, Value>, env: Env, active: Option<bool>): NodeUpdate {
    NodeUpdate(Some(s.messages), false, active, Some(env.now), Some(s.totalMessages), Some(metadata))
  }

  /** The history as the chat node hands it to the LLM: when it is empty or
      does not end with a human message, the last user message is appended
      as a human message first. */
  function Repaired(s: StateRecord, env: Env): (r: StateRecord)
    requires HasUserInput(s)
    ensures |r.messages| >= 1 && r.messages[|r.messages| - 1].msgType == Human
    ensures s.messages != [] && s.messages[|s.messages| - 1].msgType == Human ==> r == s
    ensures (s.messages == [] || s.messages[|s.messages| - 1].msgType != Human) ==>
              r.messages == s.messages + [CreateHumanMessage(s.lastUserMessage.value, None, env.userMessageId, env.now)]
    ensures r.metadata == s.metadata && r.processing == s.processing && r.active == s.active
  {
    if s.messages == [] || s.messages[|s.messages| - 1].msgType != Human then
      WithMessage(s, CreateHumanMessage(s.lastUserMessage.value, None, env.userMessageId, env.now), env.now)
    else s
  }

  /** The context window of the chat node. */
  const ChatContextLimit := 10

  /** `metadata.get("usage", {}).get("completion_tokens")`: a missing usage
      entry gives `None`; a usage entry that is not a dict has no `.get`. */
  function ResponseTokens(metadata: map<string, Value>): (r: Result<Value, string>)
    ensures "usage" !in metadata ==> r == Ok(Null)
    ensures "usage" in metadata && metadata["usage"].Obj? ==> r == Ok(Get(metadata["usage"].fields, "completion_tokens"))
    ensures "usage" in metadata && !metadata["usage"].Obj? ==> r.Err?
  {
    if "usage" !in metadata then Ok(Null)
    else match metadata["usage"]
      case Obj(usage) => Ok(Get(usage, "completion_tokens"))
      case other => Err("'" + PyTypeName(other) + "' object has no attribute 'get'")
  }

  const ServiceErrorPrefix := "Entschuldigung, es gab ein Problem bei der Verarbeitung deiner Nachricht. Fehler: "
  const UnexpectedErrorText := "Entschuldigung, es gab einen unerwarteten Fehler. Bitte versuche es erneut."

  /** The LLM-service error path: one AI message naming the error, and the
      exception's dict recorded as `last_error`. */
  function ServiceErrorPath(s: StateRecord, x: LlmServiceException, env: Env): (StateRecord, NodeUpdate) {
    var m := CreateAiMessage(ServiceErrorPrefix + x.message,
                             Some(map["error" := Bool(true), "error_type" := Str(TypeValue(x.errorType)),
                                      "langchain_service" := Bool(true)]),
                             env.replyId, env.now);
    var r := WithMessage(s, m, env.now);
    (r, Finished(r, r.metadata + map["last_error" := Obj(ToDict(x)), "last_error_time" := Str(env.nowIso),
                                     "langchain_service" := Bool(true)], env, None))
  }

  /** The path for any other exception: one fixed AI apology, and the error
      text recorded as `last_error`. */
  function UnexpectedPath(s: StateRecord, text: string, env: Env): (StateRecord, NodeUpdate) {
    var m := CreateAiMessage(UnexpectedErrorText,
                             Some(map["error" := Bool(true), "error_type" := Str("unexpected_error"),
                                      "langchain_service" := Bool(true)]),
                             env.replyId, env.now);
    var r := WithMessage(s, m, env.now);
    (r, Finished(r, r.metadata + map["last_error" := Obj(map["type" := Str("unexpected_error"), "message" := Str(text)]),
                                     "last_error_time" := Str(env.nowIso), "langchain_service" := Bool(true)], env, None))
  }

  /** The path of a reply: it is appended, then its token count is read,
      and a usage entry that is not a dict leads to the apology as well. */
  function ReplyPath(s: StateRecord, m: ChatMessage, env: Env): (StateRecord, NodeUpdate) {
    var r := WithMessage(s, m, env.now);
    match ResponseTokens(m.metadata)
    case Ok(tokens) => (r, Finished(r, SuccessMetadata(r.metadata, m, tokens, env), env, None))
    case Err(e) => UnexpectedPath(r, e, env)
  }

  /** The metadata of a successful turn. */
  function SuccessMetadata(metadata: map<string, Value>, reply: ChatMessage, tokens: Value, env: Env): map<string, Value> {
    metadata + map[
      "last_model_used" := Get(reply.metadata, "model"),
      "last_response_tokens" := tokens,
      "last_completion_time" := Str(env.nowIso),
      "langchain_service" := Bool(true),
      "langsmith_traced" := Bool(true)]
  }

  /** `generic_chat_node` as a function of the state before the call: the new
      state and the returned dict. The LLM sees the last ten messages of the
      repaired history. */
  function ChatNode(s: StateRecord, llm: seq<ChatMessage> -> ChatOutcome, env: Env): (r: (StateRecord, NodeUpdate))
    ensures HasUserInput(s) ==> !r.1.processing && r.1.messages == Some(r.0.messages) && |r.0.messages| > |s.messages|
  {
    if !HasUserInput(s) then (s, NodeUpdate(None, false, None, None, None, None))
    else
      var s1 := Repaired(s, env);
      match llm(RecentMessages(s1.messages, ChatContextLimit))
      case Reply(m) => ReplyPath(s1, m, env)
      case ServiceFailure(x) => ServiceErrorPath(s1, x, env)
      case Crash(e) => UnexpectedPath(s1, e, env)
  }

  /** Without a user message the node answers `{processing: False}` and
      touches nothing. */
  lemma ChatNodeWithoutInput(s: StateRecord, llm: seq<ChatMessage> -> ChatOutcome, env: Env)
    requires !HasUserInput(s)
    ensures ChatNode(s, llm, env).0 == s
    ensures ChatNode(s, llm, env).1 == NodeUpdate(None, false, None, None, None, None)
  {
  }

  /** The LLM is given at most ten messages, a suffix of the repaired history
      that ends with a human message. */
  lemma ChatContextEndsWithUser(s: StateRecord, env: Env)
    requires HasUserInput(s)
    ensures var h := Repaired(s, env).messages;
      var c := RecentMessages(h, ChatContextLimit);
      1 <= |c| <= ChatContextLimit && c == h[|h| - |c|..] && c[|c| - 1].msgType == Human
  {
    var h := Repaired(s, env).messages;
    RecentMessagesSpec(h, ChatContextLimit);
    var c := RecentMessages(h, ChatContextLimit);
    assert c[|c| - 1] == h[|h| - 1];
  }

  /** A reply whose usage entry is absent or a dict ends the turn with
      exactly that reply appended to the repaired history, and the metadata
      records the model and the token count. */
  lemma ChatNodeReply(s: StateRecord, llm: seq<ChatMessage> -> ChatOutcome, env: Env)
    requires HasUserInput(s)
    requires var o := llm(RecentMessages(Repaired(s, env).messages, ChatContextLimit));
      o.Reply? && ResponseTokens(o.message.metadata).Ok?
    ensures var o := llm(RecentMessages(Repaired(s, env).messages, ChatContextLimit));
      var (r, u) := ChatNode(s, llm, env);
      r.messages == Repaired(s, env).messages + [o.message] &&
      u.messages == Some(r.messages) && !u.processing && CounterInStep(r) &&
      u.totalMessages == Some(|r.messages|) && u.metadata.Some? &&
      u.metadata.value["last_model_used"] == Get(o.message.metadata, "model") &&
      u.metadata.value["last_response_tokens"] == ResponseTokens(o.message.metadata).value &&
      u.metadata.value["langsmith_traced"] == Bool(true)
  {
  }

  /** Either error path appends exactly one AI message, flagged as an error,
      and turns `processing` off. */
  lemma ChatNodeErrorPaths(s: StateRecord, llm: seq<ChatMessage> -> ChatOutcome, env: Env)
    requires HasUserInput(s)
    requires !llm(RecentMessages(Repaired(s, env).messages, ChatContextLimit)).Reply?
    ensures ErrorPathShape(Repaired(s, env), ChatNode(s, llm, env))
  {
    var s1 := Repaired(s, env);
    var h := s1.messages;
    match llm(RecentMessages(h, ChatContextLimit))
    case ServiceFailure(x) =>
      assert ChatNode(s, llm, env) == ServiceErrorPath(s1, x, env);
      ServiceErrorPathShape(s1, x, env);
    case Crash(e) =>
      assert ChatNode(s, llm, env) == UnexpectedPath(s1, e, env);
      UnexpectedPathShape(s1, e, env);
  }

  /** What an error path yields from history `s.messages`. */
  predicate ErrorPathShape(s: StateRecord, p: (StateRecord, NodeUpdate)) {
    var h := s.messages;
    var (r, u) := p;
    |r.messages| == |h| + 1 && r.messages[..|h|] == h &&
    r.messages[|h|].msgType == Ai && "error" in r.messages[|h|].metadata &&
    r.messages[|h|].metadata["error"] == Bool(true) &&
    u.messages == Some(r.messages) && !u.processing && CounterInStep(r)
  }

  lemma ServiceErrorPathShape(s: StateRecord, x: LlmServiceException, env: Env)
    ensures ErrorPathShape(s, ServiceErrorPath(s, x, env))
  {
    var r := ServiceErrorPath(s, x, env).0;
    assert r.messages[..|s.messages|] == s.messages;
  }

  lemma UnexpectedPathShape(s: StateRecord, e: string, env: Env)
    ensures ErrorPathShape(s, UnexpectedPath(s, e, env))
  {
    var r := UnexpectedPath(s, e, env).0;
    assert r.messages[..|s.messages|] == s.messages;
  }

  /** A reply whose usage entry is present but not a dict is appended, and
      then the apology for the resulting `AttributeError` is appended after
      it: two AI messages for one turn. */
  lemma UsageNotDictAppendsTwo(s: StateRecord, llm: seq<ChatMessage> -> ChatOutcome, env: Env)
    requires HasUserInput(s)
    requires var o := llm(RecentMessages(Repaired(s, env).messages, ChatContextLimit));
      o.Reply? && o.message.msgType == Ai && "usage" in o.message.metadata && !o.message.metadata["usage"].Obj?
    ensures var h := Repaired(s, env).messages;
      var o := llm(RecentMessages(h, ChatContextLimit));
      var r := ChatNode(s, llm, env).0;
      |r.messages| == |h| + 2 && r.messages[..|h| + 1] == h + [o.message] &&
      r.messages[|h| + 1].msgType == Ai && r.messages[|h| + 1].content == UnexpectedErrorText
  {
    var h := Repaired(s, env).messages;
    var r := ChatNode(s, llm, env).0;
    assert r.messages[..|h| + 1] == h + [llm(RecentMessages(h, ChatContextLimit)).message];
  }

  /** Once the graph has merged the chat node's dict, the router never sends
      the same state straight back to the chat node. */
  lemma ChatNodeSettles(s: StateRecord, llm: seq<ChatMessage> -> ChatOutcome, env: Env)
    ensures var (r, u) := ChatNode(s, llm, env);
      ShouldContinue(Apply(r, u)) != Chat
  {
  }

  const WelcomeText := "Hallo! Willkommen beim TextRPG-Chat. Ich bin dein virtueller Gesprächspartner. Wie kann ich dir heute helfen?"
  const FallbackWelcomeText := "Hallo! Willkommen beim TextRPG-Chat."

  /** `start_node`; `failure` is the text of an exception raised before the
      welcome message was written, which leads to the short fallback
      greeting. */
  function StartNode(s: StateRecord, failure: Option<string>, env: Env): (r: (StateRecord, NodeUpdate))
    ensures r.1.active == Some(true) && !r.1.processing && r.1.messages == Some(r.0.messages)
    ensures |s.messages| <= |r.0.messages| <= |s.messages| + 1 && r.0.messages[..|s.messages|] == s.messages
  {
    match failure
    case None =>
      var r := if s.messages == [] then
                 WithMessage(s, CreateAiMessage(WelcomeText,
                                                Some(map["node" := Str("start_node"), "session_initialized" := Bool(true),
                                                         "phase" := Str("1 - Foundation Chatbot")]),
                                                env.replyId, env.now), env.now)
               else s;
      (r, Finished(r, r.metadata + map["session_initialized" := Bool(true), "initialization_time" := Str(env.nowIso)],
                   env, Some(true)))
    case Some(e) =>
      var r := WithMessage(s, CreateAiMessage(FallbackWelcomeText, Some(map["error" := Bool(true), "fallback" := Bool(true)]),
                                              env.replyId, env.now), env.now);
      (r, Finished(r, r.metadata + map["initialization_error" := Str(e), "initialization_time" := Str(env.nowIso)],
                   env, Some(true)))
  }

  /** The start node greets an empty session with exactly the welcome
      message, leaves a non-empty history alone, and always reports the
      session active and not processing. */
  lemma StartNodeGreetsOnce(s: StateRecord, env: Env)
    ensures var (r, u) := StartNode(s, None, env);
      u.active == Some(true) && !u.processing && u.messages == Some(r.messages) &&
      (s.messages == [] ==> |r.messages| == 1 && r.messages[0].content == WelcomeText && r.messages[0].msgType == Ai) &&
      (s.messages != [] ==> r.messages == s.messages)
  {
  }

  /** Running the start node again adds nothing: the greeting is written once. */
  lemma StartNodeIdempotent(s: StateRecord, env: Env, env2: Env)
    ensures StartNode(StartNode(s, None, env).0, None, env2).0.messages == StartNode(s, None, env).0.messages
  {
  }

  /** The fallback path always appends the short greeting, whatever the
      history, and records the error. */
  lemma StartNodeFallback(s: StateRecord, e: string, env: Env)
    ensures var (r, u) := StartNode(s, Some(e), env);
      r.messages == s.messages + [r.messages[|s.messages|]] &&
      r.messages[|s.messages|].content == FallbackWelcomeText &&
      r.messages[|s.messages|].metadata == map["error" := Bool(true), "fallback" := Bool(true)] &&
      u.active == Some(true) && !u.processing && u.metadata.Some? &&
      u.metadata.value["initialization_error"] == Str(e)
  {
  }

  /** `generic_chat_node` on the mutable state. */
  method GenericChatNode(state: ChatState, llm: seq<ChatMessage> -> ChatOutcome, env: Env) returns (u: NodeUpdate)
    modifies state
    ensures (state.Snapshot(), u) == ChatNode(old(state.Snapshot()), llm, env)
  {
    if state.lastUserMessage.None? || state.lastUserMessage.value == [] {
      return NodeUpdate(None, false, None, None, None, None);
    }
    ghost var s0 := state.Snapshot();
    if state.messages == [] || state.messages[|state.messages| - 1].msgType != Human {
      state.AddMessage(CreateHumanMessage(state.lastUserMessage.value, None, env.userMessageId, env.now), env.now);
    }
    assert state.Snapshot() == Repaired(s0, env);
    var recent := state.GetRecentMessages(ChatContextLimit);
    var outcome := llm(recent);
    match outcome {
      case Reply(m) =>
        u := AddReply(state, m, env);
      case ServiceFailure(x) =>
        u := AddServiceError(state, x, env);
      case Crash(e) =>
        u := AddUnexpectedError(state, e, env);
    }
  }

  /** The reply branch of `generic_chat_node` on the mutable state. */
  method AddReply(state: ChatState, m: ChatMessage, env: Env) returns (u: NodeUpdate)
    modifies state
    ensures (state.Snapshot(), u) == ReplyPath(old(state.Snapshot()), m, env)
  {
    state.AddMessage(m, env.now);
    var tokens := ResponseTokens(m.metadata);
    if tokens.Ok? {
      u := Finished(state.Snapshot(), SuccessMetadata(state.metadata, m, tokens.value, env), env, None);
    } else {
      u := AddUnexpectedError(state, tokens.error, env);
    }
  }

  /** The `except LLMServiceException` branch of `generic_chat_node` on the
      mutable state. */
  method AddServiceError(state: ChatState, x: LlmServiceException, env: Env) returns (u: NodeUpdate)
    modifies state
    ensures (state.Snapshot(), u) == ServiceErrorPath(old(state.Snapshot()), x, env)
  {
    var m := CreateAiMessage(ServiceErrorPrefix + x.message,
                             Some(map["error" := Bool(true), "error_type" := Str(TypeValue(x.errorType)),
                                      "langchain_service" := Bool(true)]),
                             env.replyId, env.now);
    state.AddMessage(m, env.now);
    u := Finished(state.Snapshot(), state.metadata + map["last_error" := Obj(ToDict(x)),
                                                         "last_error_time" := Str(env.nowIso),
                                                         "langchain_service" := Bool(true)], env, None);
  }

  /** The `except Exception` branch of `generic_chat_node` on the mutable state. */
  method AddUnexpectedError(state: ChatState, text: string, env: Env) returns (u: NodeUpdate)
    modifies state
    ensures (state.Snapshot(), u) == UnexpectedPath(old(state.Snapshot()), text, env)
  {
    var m := CreateAiMessage(UnexpectedErrorText,
                             Some(map["error" := Bool(true), "error_type" := Str("unexpected_error"),
                                      "langchain_service" := Bool(true)]),
                             env.replyId, env.now);
    state.AddMessage(m, env.now);
    u := Finished(state.Snapshot(), state.metadata + map["last_error" := Obj(map["type" := Str("unexpected_error"), "message" := Str(text)]),
                                                         "last_error_time" := Str(env.nowIso),
                                                         "langchain_service" := Bool(true)], env, None);
  }

  /** `start_node` on the mutable state. */
  method RunStartNode(state: ChatState, failure: Option<string>, env: Env) returns (u: NodeUpdate)
    modifies state
    ensures (state.Snapshot(), u) == StartNode(old(state.Snapshot()), failure, env)
  {
    if failure.None? {
      if state.messages == [] {
        state.AddMessage(CreateAiMessage(WelcomeText,
                                         Some(map["node" := Str("start_node"), "session_initialized" := Bool(true),
                                                  "phase" := Str("1 - Foundation Chatbot")]),
                                         env.replyId, env.now), env.now);
      }
      u := Finished(state.Snapshot(), state.metadata + map["session_initialized" := Bool(true),
                                                           "initialization_time" := Str(env.nowIso)], env, Some(true));
    } else {
      state.AddMessage(CreateAiMessage(FallbackWelcomeText, Some(map["error" := Bool(true), "fallback" := Bool(true)]),
                                       env.replyId, env.now), env.now);
      u := Finished(state.Snapshot(), state.metadata + map["initialization_error" := Str(failure.value),
                                                           "initialization_time" := Str(env.nowIso)], env, Some(true));
    }
  }
}
