/** The per-session conversation state: an append-only history with a
    message counter kept in step, the last user input, the agent currently in
    charge and the context handed between agents. `StateRecord` is the state
    as a value, with one function per operation saying what the operation
    yields; `ChatState` is the mutable object whose methods are proved to
    follow those functions. */
module State {
  import opened Wrappers
  import opened Values
  import opened Messages

  /** The agents a state may name as current. */
  datatype AgentType = StoryCreator | Gamemaster

  function AgentName(a: AgentType): string {
    match a
    case StoryCreator => "story_creator"
    case Gamemaster => "gamemaster"
  }

  datatype StateRecord = StateRecord(
    sessionId: string,
    messages: seq<ChatMessage>,
    currentAgent: Option<AgentType>,
    transitionTrigger: Option<string>,
    storyContext: Option<string>,
    characterInfo: Option<map<string, Value>>,
    agentHandoffContext: Option<string>,
    active: bool,
    createdAt: int,
    lastUpdated: int,
    processing: bool,
    lastUserMessage: Option<string>,
    totalMessages: int,
    metadata: map<string, Value>,
    lastMessageHash: Option<string>)

  /** `total_messages` agrees with the length of the history. */
  predicate CounterInStep(s: StateRecord) {
    s.totalMessages == |s.messages|
  }

  /** A state built from a session id alone: empty history, active, not
      processing, no agent, an empty character dict, both clocks at `now`. */
  function NewState(sessionId: string, now: int): (s: StateRecord)
    ensures s.sessionId == sessionId && s.messages == [] && CounterInStep(s)
    ensures s.active && !s.processing && s.lastUserMessage == None
    ensures s.currentAgent == None && s.characterInfo == Some(map[])
    ensures s.createdAt == now && s.lastUpdated == now
  {
    StateRecord(sessionId, [], None, None, None, Some(map[]), None, true, now, now, false, None, 0, map[], None)
  }

  /** `add_message`: the message goes at the end, the counter follows the
      length, `last_updated` is `now`, and a human message becomes the last
      user message. */
  function WithMessage(s: StateRecord, m: ChatMessage, now: int): (r: StateRecord)
    ensures r.messages == s.messages + [m]
    ensures CounterInStep(r)
    ensures r.lastUpdated == now
    ensures r.lastUserMessage == if m.msgType == Human then Some(m.content) else s.lastUserMessage
    ensures r.(messages := s.messages, totalMessages := s.totalMessages, lastUpdated := s.lastUpdated,
               lastUserMessage := s.lastUserMessage) == s
  {
    s.(messages := s.messages + [m], totalMessages := |s.messages| + 1, lastUpdated := now,
       lastUserMessage := if m.msgType == Human then Some(m.content) else s.lastUserMessage)
  }

  /** Adding a message never disturbs the entries already present. */
  lemma WithMessageKeepsPrefix(s: StateRecord, m: ChatMessage, now: int, i: int)
    requires 0 <= i < |s.messages|
    ensures WithMessage(s, m, now).messages[i] == s.messages[i]
    ensures WithMessage(s, m, now).messages[|s.messages|] == m
  {
  }

  /** Python's `xs[start:]` for any integer `start`: a negative start counts
      from the end, and both ends are clamped to the list. */
  function SliceFrom<T>(xs: seq<T>, start: int): (r: seq<T>)
    ensures start >= 0 ==> r == xs[if start <= |xs| then start else |xs|..]
    ensures start < 0 ==> r == xs[if |xs| + start >= 0 then |xs| + start else 0..]
  {
    if start >= 0 then (if start <= |xs| then xs[start..] else [])
    else if |xs| + start >= 0 then xs[|xs| + start..]
    else xs
  }

  /** `get_recent_messages(limit)`: `messages[-limit:]` when the history is
      longer than `limit`, the whole history otherwise. */
  function RecentMessages(msgs: seq<ChatMessage>, limit: int): (r: seq<ChatMessage>)
    ensures |r| <= |msgs|
    ensures limit >= 1 ==> |r| == if limit < |msgs| then limit else |msgs|
  {
    if |msgs| > limit then SliceFrom(msgs, -limit) else msgs
  }

  /** What `get_recent_messages` returns: always a suffix of the history;
      for a positive limit exactly the last `min(limit, len)` messages in
      order; for a limit of 0 the whole history (`messages[-0:]` is
      `messages[0:]`); for a negative limit the history without its first
      `-limit` messages. */
  lemma RecentMessagesSpec(msgs: seq<ChatMessage>, limit: int)
    ensures var r := RecentMessages(msgs, limit);
      |r| <= |msgs| && r == msgs[|msgs| - |r|..]
    ensures limit >= 1 ==>
      |RecentMessages(msgs, limit)| == (if limit < |msgs| then limit else |msgs|)
    ensures limit == 0 ==> RecentMessages(msgs, limit) == msgs
    ensures limit < 0 ==>
      RecentMessages(msgs, limit) == msgs[if -limit <= |msgs| then -limit else |msgs|..]
  {
  }

  /** `clear_messages`: history, counter and last user message are reset;
      everything else except `last_updated` is left as it was. */
  function Cleared(s: StateRecord, now: int): (r: StateRecord)
    ensures r.messages == [] && r.totalMessages == 0 && r.lastUserMessage == None
    ensures r.lastUpdated == now
    ensures r.sessionId == s.sessionId && r.createdAt == s.createdAt
    ensures r.(messages := s.messages, totalMessages := s.totalMessages,
               lastUserMessage := s.lastUserMessage, lastUpdated := s.lastUpdated) == s
  {
    s.(messages := [], totalMessages := 0, lastUserMessage := None, lastUpdated := now)
  }

  /** `switch_agent`: agent, trigger and handoff context become exactly the
      given values (a missing context clears the old one). */
  function Switched(s: StateRecord, agent: AgentType, trigger: string, handoff: Option<string>, now: int): (r: StateRecord)
    ensures r.currentAgent == Some(agent) && r.transitionTrigger == Some(trigger)
    ensures r.agentHandoffContext == handoff && r.lastUpdated == now
    ensures r.(currentAgent := s.currentAgent, transitionTrigger := s.transitionTrigger,
               agentHandoffContext := s.agentHandoffContext, lastUpdated := s.lastUpdated) == s
  {
    s.(currentAgent := Some(agent), transitionTrigger := Some(trigger), agentHandoffContext := handoff,
       lastUpdated := now)
  }

  /** `update_story_context` */
  function WithStoryContext(s: StateRecord, context: string, now: int): (r: StateRecord)
    ensures r.storyContext == Some(context) && r.lastUpdated == now
    ensures r.(storyContext := s.storyContext, lastUpdated := s.lastUpdated) == s
  {
    s.(storyContext := Some(context), lastUpdated := now)
  }

  /** `update_character_info`: a missing dict is first replaced by an empty
      one, then `dict.update` merges: the new keys win, the other old keys
      stay. */
  function WithCharacterInfo(s: StateRecord, updates: map<string, Value>, now: int): (r: StateRecord)
    ensures r.characterInfo.Some?
    ensures var old_ := s.characterInfo.GetOr(map[]);
      var info := r.characterInfo.value;
      info.Keys == old_.Keys + updates.Keys &&
      (forall k :: k in updates ==> info[k] == updates[k]) &&
      (forall k :: k in old_ && k !in updates ==> info[k] == old_[k])
    ensures r.lastUpdated == now
    ensures r.(characterInfo := s.characterInfo, lastUpdated := s.lastUpdated) == s
  {
    var base := s.characterInfo.GetOr(map[]);
    s.(characterInfo := Some(base + updates), lastUpdated := now)
  }

  /** `get_agent_context`: the five agent fields under their own names,
      `None` as `Null`. */
  function AgentContext(s: StateRecord): (d: map<string, Value>)
    ensures d.Keys == {"current_agent", "transition_trigger", "story_context", "character_info", "agent_handoff_context"}
    ensures d["current_agent"] == (match s.currentAgent case None => Null case Some(a) => Str(AgentName(a)))
    ensures d["transition_trigger"] == OptStr(s.transitionTrigger)
    ensures d["story_context"] == OptStr(s.storyContext)
    ensures d["character_info"] == (match s.characterInfo case None => Null case Some(c) => Obj(c))
    ensures d["agent_handoff_context"] == OptStr(s.agentHandoffContext)
  {
    map[
      "current_agent" := (match s.currentAgent case None => Null case Some(a) => Str(AgentName(a))),
      "transition_trigger" := OptStr(s.transitionTrigger),
      "story_context" := OptStr(s.storyContext),
      "character_info" := (match s.characterInfo case None => Null case Some(c) => Obj(c)),
      "agent_handoff_context" := OptStr(s.agentHandoffContext)]
  }

  /** `reset_agent_state`: every agent field is cleared, the character dict
      becomes empty, and the history is not touched. */
  function AgentReset(s: StateRecord, now: int): (r: StateRecord)
    ensures r.currentAgent == None && r.transitionTrigger == None && r.storyContext == None
    ensures r.characterInfo == Some(map[]) && r.agentHandoffContext == None
    ensures r.messages == s.messages && r.totalMessages == s.totalMessages && r.lastUpdated == now
    ensures r.(currentAgent := s.currentAgent, transitionTrigger := s.transitionTrigger,
               storyContext := s.storyContext, characterInfo := s.characterInfo,
               agentHandoffContext := s.agentHandoffContext, lastUpdated := s.lastUpdated) == s
  {
    s.(currentAgent := None, transitionTrigger := None, storyContext := None,
       characterInfo := Some(map[]), agentHandoffContext := None, lastUpdated := now)
  }

  /** After a reset the agent context reports nothing but an empty character dict. */
  lemma ResetContext(s: StateRecord, now: int)
    ensures AgentContext(AgentReset(s, now)) == map[
      "current_agent" := Null, "transition_trigger" := Null, "story_context" := Null,
      "character_info" := Obj(map[]), "agent_handoff_context" := Null]
  {
  }

  /** Every operation that changes the state keeps the counter in step with
      the history, starting from a fresh state. */
  lemma CounterPreserved(s: StateRecord, m: ChatMessage, a: AgentType, t: string, h: Option<string>,
                         c: string, u: map<string, Value>, now: int)
    requires CounterInStep(s)
    ensures CounterInStep(WithMessage(s, m, now)) && CounterInStep(Cleared(s, now))
    ensures CounterInStep(Switched(s, a, t, h, now)) && CounterInStep(WithStoryContext(s, c, now))
    ensures CounterInStep(WithCharacterInfo(s, u, now)) && CounterInStep(AgentReset(s, now))
  {
  }

  /** The mutable `ChatState`. The hash of the last accepted reply
      (`last_message_hash`) is kept here because the duplicate filter reads
      and writes it. */
  class ChatState {
    var sessionId: string
    var messages: seq<ChatMessage>
    var currentAgent: Option<AgentType>
    var transitionTrigger: Option<string>
    var storyContext: Option<string>
    var characterInfo: Option<map<string, Value>>
    var agentHandoffContext: Option<string>
    var active: bool
    var createdAt: int
    var lastUpdated: int
    var processing: bool
    var lastUserMessage: Option<string>
    var totalMessages: int
    var metadata: map<string, Value>
    var lastMessageHash: Option<string>

    function Snapshot(): StateRecord
      reads this
    {
      StateRecord(sessionId, messages, currentAgent, transitionTrigger, storyContext, characterInfo,
                  agentHandoffContext, active, createdAt, lastUpdated, processing, lastUserMessage,
                  totalMessages, metadata, lastMessageHash)
    }

    constructor (sessionId: string, now: int)
      ensures Snapshot() == NewState(sessionId, now)
    {
      this.sessionId := sessionId;
      messages := [];
      currentAgent := None;
      transitionTrigger := None;
      storyContext := None;
      characterInfo := Some(map[]);
      agentHandoffContext := None;
      active := true;
      createdAt := now;
      lastUpdated := now;
      processing := false;
      lastUserMessage := None;
      totalMessages := 0;
      metadata := map[];
      lastMessageHash := None;
    }

    method AddMessage(m: ChatMessage, now: int)
      modifies this
      ensures Snapshot() == WithMessage(old(Snapshot()), m, now)
    {
      messages := messages + [m];
      totalMessages := |messages|;
      lastUpdated := now;
      if m.msgType == Human {
        lastUserMessage := Some(m.content);
      }
    }

    function GetRecentMessages(limit: int): (r: seq<ChatMessage>)
      reads this
      ensures r == RecentMessages(messages, limit)
    {
      if |messages| > limit then SliceFrom(messages, -limit) else messages
    }

    method ClearMessages(now: int)
      modifies this
      ensures Snapshot() == Cleared(old(Snapshot()), now)
    {
      messages := [];
      totalMessages := 0;
      lastUserMessage := None;
      lastUpdated := now;
    }

    method SwitchAgent(agent: AgentType, trigger: string, handoff: Option<string>, now: int)
      modifies this
      ensures Snapshot() == Switched(old(Snapshot()), agent, trigger, handoff, now)
    {
      currentAgent := Some(agent);
      transitionTrigger := Some(trigger);
      agentHandoffContext := handoff;
      lastUpdated := now;
    }

    method UpdateStoryContext(context: string, now: int)
      modifies this
      ensures Snapshot() == WithStoryContext(old(Snapshot()), context, now)
    {
      storyContext := Some(context);
      lastUpdated := now;
    }

    method UpdateCharacterInfo(updates: map<string, Value>, now: int)
      modifies this
      ensures Snapshot() == WithCharacterInfo(old(Snapshot()), updates, now)
    {
      if characterInfo == None {
        characterInfo := Some(map[]);
      }
      characterInfo := Some(characterInfo.value + updates);
      lastUpdated := now;
    }

    function GetAgentContext(): (d: map<string, Value>)
      reads this
      ensures d == AgentContext(Snapshot())
    {
      AgentContext(Snapshot())
    }

    method ResetAgentState(now: int)
      modifies this
      ensures Snapshot() == AgentReset(old(Snapshot()), now)
    {
      currentAgent := None;
      transitionTrigger := None;
      storyContext := None;
      characterInfo := Some(map[]);
      agentHandoffContext := None;
      lastUpdated := now;
    }

    /** Records the hash of the reply just accepted. */
    method SetMessageHash(h: string)
      modifies this
      ensures Snapshot() == old(Snapshot()).(lastMessageHash := Some(h))
    {
      lastMessageHash := Some(h);
    }
  }
}
