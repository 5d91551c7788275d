/** The agent nodes of the setup/gameplay graph. They work on the graph's
    dict state and build a new dict instead of changing the old one: the
    history gains one AI message per call, the current agent is tagged, and
    the gameplay node counts its interactions. */
module NodesAgents {
  import opened Wrappers
  import opened Values
  import opened Converters
  import opened Exceptions
  import opened SetupAgent

  /** The graph's dict state: the `messages` entry (absent as `None`) and
      every other key. */
  datatype NodeState = NodeState(messages: Option<seq<LcMessage>>, fields: map<string, Value>)

  /** `state.get("messages", [])` */
  function History(s: NodeState): seq<LcMessage> {
    s.messages.GetOr([])
  }

  /** `AIMessage(content=text)` */
  function AiMessage(text: string): LcMessage {
    LcMessage(AiClass, text, map[])
  }

  const ErrorPrefix := "Ein Fehler ist aufgetreten: "

  /** The `except` branch of both nodes: the history plus one error
      message; every other key as it was. */
  function ErrorState(s: NodeState, error: string): (r: NodeState)
    ensures r.messages == Some(History(s) + [AiMessage(ErrorPrefix + error)])
    ensures r.fields == s.fields
  {
    NodeState(Some(History(s) + [AiMessage(ErrorPrefix + error)]), s.fields)
  }

  /** What `setup_agent_node` returns: the agent's command, or a new state. */
  datatype SetupNodeResult = Forward(command: SetupOutcome) | NewState(state: NodeState)

  /** `setup_agent_node`; `agent` is what the setup agent returned or the
      text of what it raised. */
  function SetupAgentNode(s: NodeState, agent: Result<SetupOutcome, string>): (r: SetupNodeResult)
    ensures agent.Ok? && agent.value.GotoCommand? ==> r == Forward(agent.value)
    ensures agent.Ok? && agent.value.TextReply? ==>
              r == NewState(NodeState(Some(History(s) + [AiMessage(agent.value.text)]),
                                      s.fields["current_agent" := Str("setup_agent")]))
    ensures agent.Err? ==> r == NewState(ErrorState(s, agent.error))
  {
    match agent
    case Ok(GotoCommand(update, goto)) => Forward(agent.value)
    case Ok(TextReply(text)) =>
      NewState(NodeState(Some(History(s) + [AiMessage(text)]), s.fields["current_agent" := Str("setup_agent")]))
    case Err(e) => NewState(ErrorState(s, e))
  }

  /** Every new state the setup node builds has exactly one message more
      than the history it was given, and keeps that history as its prefix;
      the current agent changes only on a reply. */
  lemma SetupNodeAppendsOne(s: NodeState, agent: Result<SetupOutcome, string>)
    requires SetupAgentNode(s, agent).NewState?
    ensures var r := SetupAgentNode(s, agent).state;
      r.messages.Some? && |r.messages.value| == |History(s)| + 1 &&
      r.messages.value[..|History(s)|] == History(s) && r.messages.value[|History(s)|].cls == AiClass &&
      (forall k :: k in s.fields && k != "current_agent" ==> k in r.fields && r.fields[k] == s.fields[k]) &&
      (agent.Err? ==> r.fields == s.fields)
  {
    var r := SetupAgentNode(s, agent).state;
    assert r.messages.value[..|History(s)|] == History(s);
  }

  /** `x + 1` for the value stored under `interaction_count`: booleans count
      as 0 and 1, and a value that does not support `+ 1` raises the
      `TypeError` named here. */
  function Increment(v: Value): (r: Result<Value, string>)
    ensures v.Int? ==> r == Ok(Int(v.i + 1))
    ensures v.Null? || v.Str? || v.List? || v.Obj? ==> r.Err?
  {
    match v
    case Null => Err("unsupported operand type(s) for +: 'NoneType' and 'int'")
    case Bool(b) => Ok(Int(if b then 2 else 1))
    case Int(i) => Ok(Int(i + 1))
    case Real(x) => Ok(Real(x + 1.0))
    case Str(_) => Err("can only concatenate str (not \"int\") to str")
    case List(_) => Err("can only concatenate list (not \"int\") to list")
    case Obj(_) => Err("unsupported operand type(s) for +: 'dict' and 'int'")
  }

  /** `state.get("interaction_count", 0)` */
  function InteractionCount(s: NodeState): Value {
    GetOr(s.fields, "interaction_count", Int(0))
  }

  /** `gameplay_agent_node`; `agent` is the reply of the gameplay agent or
      the text of what it raised. */
  function GameplayAgentNode(s: NodeState, agent: Result<string, string>): (r: NodeState)
    ensures agent.Err? ==> r == ErrorState(s, agent.error)
    ensures agent.Ok? && Increment(InteractionCount(s)).Err? ==>
              r == ErrorState(s, Increment(InteractionCount(s)).error)
  {
    match agent
    case Err(e) => ErrorState(s, e)
    case Ok(text) =>
      match Increment(InteractionCount(s))
      case Err(e) => ErrorState(s, e)
      case Ok(count) =>
        NodeState(Some(History(s) + [AiMessage(text)]),
                  s.fields["current_agent" := Str("gameplay_agent")]["interaction_count" := count])
  }

  /** A successful gameplay turn appends the reply, tags the gameplay agent
      and counts one more interaction (from 0 when the key is absent);
      every other key stays. */
  lemma GameplayTurnCounts(s: NodeState, text: string)
    requires InteractionCount(s).Int?
    ensures var r := GameplayAgentNode(s, Ok(text));
      r.messages == Some(History(s) + [AiMessage(text)]) &&
      r.fields["current_agent"] == Str("gameplay_agent") &&
      r.fields["interaction_count"] == Int(InteractionCount(s).i + 1) &&
      r.fields.Keys == s.fields.Keys + {"current_agent", "interaction_count"} &&
      (forall k :: k in s.fields && k !in {"current_agent", "interaction_count"} ==> r.fields[k] == s.fields[k])
  {
  }

  /** One successful turn, as far as the counter and the history go. */
  lemma GameplayStep(s: NodeState, text: string)
    requires InteractionCount(s).Int?
    ensures InteractionCount(GameplayAgentNode(s, Ok(text))) == Int(InteractionCount(s).i + 1)
    ensures History(GameplayAgentNode(s, Ok(text))) == History(s) + [AiMessage(text)]
  {
  }

  /** The error path leaves the counter and the current agent alone. */
  lemma GameplayErrorKeepsCount(s: NodeState, error: string)
    ensures GameplayAgentNode(s, Err(error)).fields == s.fields
    ensures InteractionCount(GameplayAgentNode(s, Err(error))) == InteractionCount(s)
  {
  }

  /** The gameplay node run once per successful model reply, in order: each
      turn adds exactly one message, even when the counter cannot be
      incremented, and no key is ever dropped. */
  function RunGameplay(s: NodeState, replies: seq<string>): (r: NodeState)
    ensures |History(r)| == |History(s)| + |replies|
    ensures s.fields.Keys <= r.fields.Keys
    decreases |replies|
  {
    if replies == [] then s else RunGameplay(GameplayAgentNode(s, Ok(replies[0])), replies[1..])
  }

  function AiMessages(replies: seq<string>): (r: seq<LcMessage>)
    ensures |r| == |replies|
    ensures forall i :: 0 <= i < |replies| ==> r[i] == AiMessage(replies[i])
  {
    if replies == [] then [] else [AiMessage(replies[0])] + AiMessages(replies[1..])
  }

  /** After `n` successful gameplay turns from an integer count `c`, the
      count is `c + n` and the history has gained exactly the `n` replies,
      in order. */
  lemma {:induction false} GameplayCountsEveryTurn(s: NodeState, replies: seq<string>)
    requires InteractionCount(s).Int?
    ensures InteractionCount(RunGameplay(s, replies)) == Int(InteractionCount(s).i + |replies|)
    ensures History(RunGameplay(s, replies)) == History(s) + AiMessages(replies)
    decreases |replies|
  {
    if replies != [] {
      var s1 := GameplayAgentNode(s, Ok(replies[0]));
      GameplayStep(s, replies[0]);
      GameplayCountsEveryTurn(s1, replies[1..]);
      assert RunGameplay(s, replies) == RunGameplay(s1, replies[1..]);
      assert AiMessages(replies) == [AiMessage(replies[0])] + AiMessages(replies[1..]);
      assert History(s) + AiMessages(replies) == (History(s) + [AiMessage(replies[0])]) + AiMessages(replies[1..]);
    }
  }
}
