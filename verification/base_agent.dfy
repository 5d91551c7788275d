/** The shared agent call: the system prompt followed by the converted
    history goes to the LLM, and the reply text is checked for a transition
    marker by the concrete agent's detector. The LLM and the detector are
    parameters. */
module BaseAgent {
  import opened Wrappers
  import opened Converters
  import State

  /** The `role` of a chat-completion message. */
  datatype Role = User | Assistant | SystemRole

  /** A `{"role": ..., "content": ...}` message sent to the LLM. */
  datatype RoleMessage = RoleMessage(role: Role, content: string)

  /** The LLM call: the messages sent, and the reply text or the error raised. */
  type Llm = seq<RoleMessage> -> Result<string, string>

  /** `(should_transition, transition_trigger)` */
  datatype Transition = Transition(shouldTransition: bool, trigger: Option<string>)

  const NoTransition := Transition(false, None)

  /** An entry of the history handed to an agent: a library message, another
      object with `type` and `content` attributes (such as a stored
      `ChatMessage`), or an object with neither. */
  datatype HistoryItem =
    | LibraryItem(m: LcMessage)
    | TypedItem(typeName: string, content: string)
    | UntypedItem

  /** The `type` attribute of a library message. */
  function LcTypeName(c: LcClass): string {
    match c
    case HumanClass => "human"
    case AiClass => "ai"
    case SystemClass => "system"
    case OtherClass(name) => name
  }

  /** The role a duck-typed message gets from its `type`; other types are skipped. */
  function RoleOfType(typeName: string): (r: Option<Role>)
    ensures r.Some? <==> typeName in {"human", "ai", "system"}
  {
    if typeName == "human" then Some(User)
    else if typeName == "ai" then Some(Assistant)
    else if typeName == "system" then Some(SystemRole)
    else None
  }

  function DuckTyped(typeName: string, content: string): Option<RoleMessage> {
    match RoleOfType(typeName)
    case Some(role) => Some(RoleMessage(role, content))
    case None => None
  }

  /** One entry of the loop: Human messages become user turns, AI messages
      assistant turns, other objects go by their `type`, and objects without
      `type`/`content` are skipped. */
  function ConvertItem(x: HistoryItem): Option<RoleMessage> {
    match x
    case LibraryItem(m) =>
      if m.cls == HumanClass then Some(RoleMessage(User, m.content))
      else if m.cls == AiClass then Some(RoleMessage(Assistant, m.content))
      else DuckTyped(LcTypeName(m.cls), m.content)
    case TypedItem(t, c) => DuckTyped(t, c)
    case UntypedItem => None
  }

  /** The converted history, in order. */
  function ConvertHistory(xs: seq<HistoryItem>): (r: seq<RoleMessage>)
    ensures |r| <= |xs|
  {
    if xs == [] then []
    else
      var last := ConvertItem(xs[|xs| - 1]);
      ConvertHistory(xs[..|xs| - 1]) + (if last.Some? then [last.value] else [])
  }

  /** Conversion works message by message: the history of a concatenation is
      the concatenation of the histories, so order is kept and nothing is
      capped. */
  lemma {:induction false} ConvertHistoryAppend(xs: seq<HistoryItem>, ys: seq<HistoryItem>)
    ensures ConvertHistory(xs + ys) == ConvertHistory(xs) + ConvertHistory(ys)
    decreases |ys|
  {
    if ys == [] {
      assert xs + ys == xs;
    } else {
      var zs := xs + ys;
      assert zs[..|zs| - 1] == xs + ys[..|ys| - 1];
      assert zs[|zs| - 1] == ys[|ys| - 1];
      ConvertHistoryAppend(xs, ys[..|ys| - 1]);
    }
  }

  /** When every entry is convertible, every one of them is sent, one for
      one and in the same order. */
  lemma {:induction false} ConvertHistoryComplete(xs: seq<HistoryItem>)
    requires forall i :: 0 <= i < |xs| ==> ConvertItem(xs[i]).Some?
    ensures |ConvertHistory(xs)| == |xs|
    ensures forall i :: 0 <= i < |xs| ==> ConvertHistory(xs)[i] == ConvertItem(xs[i]).value
  {
    if xs != [] {
      var init := xs[..|xs| - 1];
      assert forall i :: 0 <= i < |init| ==> init[i] == xs[i];
      ConvertHistoryComplete(init);
    }
  }

  /** Library Human, AI and System messages are always kept, with the roles
      user, assistant and system. */
  lemma LibraryRoles(content: string, kwargs: map<string, Values.Value>)
    ensures ConvertItem(LibraryItem(LcMessage(HumanClass, content, kwargs))) == Some(RoleMessage(User, content))
    ensures ConvertItem(LibraryItem(LcMessage(AiClass, content, kwargs))) == Some(RoleMessage(Assistant, content))
    ensures ConvertItem(LibraryItem(LcMessage(SystemClass, content, kwargs))) == Some(RoleMessage(SystemRole, content))
  {
  }

  /** The full message list: the system prompt first, then the history. */
  function FullMessages(systemPrompt: string, xs: seq<HistoryItem>): (r: seq<RoleMessage>)
    ensures |r| >= 1 && r[0] == RoleMessage(SystemRole, systemPrompt)
    ensures r[1..] == ConvertHistory(xs)
  {
    [RoleMessage(SystemRole, systemPrompt)] + ConvertHistory(xs)
  }

  /** The reply text together with the detector's verdict on it. */
  datatype AgentReply = AgentReply(text: string, transition: Transition)

  /** `process_message`: builds the message list in a loop, calls the LLM,
      and returns the reply with `detect(reply)`; an LLM error is passed on
      unchanged. */
  method ProcessMessage(systemPrompt: string, messages: seq<HistoryItem>, llm: Llm, detect: string -> Transition)
    returns (r: Result<AgentReply, string>)
    ensures var sent := FullMessages(systemPrompt, messages);
      r == match llm(sent)
           case Ok(text) => Ok(AgentReply(text, detect(text)))
           case Err(e) => Err(e)
  {
    var full := [RoleMessage(SystemRole, systemPrompt)];
    var i := 0;
    while i < |messages|
      invariant 0 <= i <= |messages|
      invariant full == [RoleMessage(SystemRole, systemPrompt)] + ConvertHistory(messages[..i])
    {
      var converted := ConvertItem(messages[i]);
      if converted.Some? {
        full := full + [converted.value];
      }
      assert messages[..i + 1][..i] == messages[..i];
      i := i + 1;
    }
    assert messages[..|messages|] == messages;
    var response := llm(full);
    match response {
      case Ok(text) =>
        r := Ok(AgentReply(text, detect(text)));
      case Err(e) =>
        r := Err(e);
    }
  }

  /** How the setup and gameplay agents send history: "user" for a message
      whose `type` is "human", "assistant" for every other message. */
  function SimpleTurn(m: LcMessage): RoleMessage {
    RoleMessage(if LcTypeName(m.cls) == "human" then User else Assistant, m.content)
  }

  const HistoryWindow := 10

  /** `messages[-10:]`: the last ten messages, or all of them when fewer. */
  function LastWindow(messages: seq<LcMessage>): (w: seq<LcMessage>)
    ensures |w| == (if |messages| < HistoryWindow then |messages| else HistoryWindow)
    ensures w == messages[|messages| - |w|..]
  {
    State.SliceFrom(messages, -HistoryWindow)
  }

  /** The turns sent for a window of history, one per message, in order. */
  function Turns(ms: seq<LcMessage>): (r: seq<RoleMessage>)
    ensures |r| == |ms| && forall i :: 0 <= i < |ms| ==> r[i] == SimpleTurn(ms[i])
  {
    seq(|ms|, i requires 0 <= i < |ms| => SimpleTurn(ms[i]))
  }

  /** The loop `for msg in messages[-10:]: llm_messages.append(...)` shared by
      the setup and gameplay agents, appending to `prefix`. */
  method AppendWindow(prefix: seq<RoleMessage>, messages: seq<LcMessage>) returns (out: seq<RoleMessage>)
    ensures out == prefix + Turns(LastWindow(messages))
  {
    var window := LastWindow(messages);
    out := prefix;
    var i := 0;
    while i < |window|
      invariant 0 <= i <= |window|
      invariant out == prefix + Turns(window[..i])
    {
      assert Turns(window[..i + 1]) == Turns(window[..i]) + [SimpleTurn(window[i])];
      out := out + [SimpleTurn(window[i])];
      i := i + 1;
    }
    assert window[..i] == window;
  }
}
