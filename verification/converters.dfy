/** Conversion between the stored `ChatMessage` records and the message
    objects of the LLM library (`HumanMessage`, `AIMessage`, `SystemMessage`
    and any other subclass of `BaseMessage`). */
module Converters {
  import opened Wrappers
  import opened Values
  import opened Messages

  /** The class of a library message; `OtherClass` stands for any other
      `BaseMessage` subclass (tool or function messages, for instance). */
  datatype LcClass = HumanClass | AiClass | SystemClass | OtherClass(name: string)

  /** A library message: its class, its text and its `additional_kwargs`. */
  datatype LcMessage = LcMessage(cls: LcClass, content: string, additionalKwargs: map<string, Value>)

  /** The if-chain of `pydantic_to_langchain` on the `type` string: the three
      known names pick their class and carry content and metadata over; any
      other name is an error. */
  function LangchainOfType(typeName: string, content: string, metadata: map<string, Value>): (r: Result<LcMessage, string>)
    ensures r.Ok? <==> ParseMessageType(typeName).Ok?
    ensures r.Ok? ==> r.value.content == content && r.value.additionalKwargs == metadata
    ensures r.Ok? ==> r.value.cls == ClassOf(ParseMessageType(typeName).value)
  {
    if typeName == "human" then Ok(LcMessage(HumanClass, content, metadata))
    else if typeName == "ai" then Ok(LcMessage(AiClass, content, metadata))
    else if typeName == "system" then Ok(LcMessage(SystemClass, content, metadata))
    else Err("Unknown message type: " + typeName)
  }

  function ClassOf(t: MessageType): LcClass {
    match t
    case Human => HumanClass
    case Ai => AiClass
    case System => SystemClass
  }

  /** `pydantic_to_langchain`: a validated message always has one of the three
      known types, so the error branch is never taken for it. */
  function PydanticToLangchain(m: ChatMessage): (r: LcMessage)
    ensures r.cls == ClassOf(m.msgType)
    ensures r.content == m.content && r.additionalKwargs == m.metadata
  {
    var res := LangchainOfType(TypeName(m.msgType), m.content, m.metadata);
    ParseTypeName(m.msgType);
    res.value
  }

  /** `langchain_to_pydantic`: Human, AI and System classes map back to their
      type, every other class to "system"; the new record gets a fresh id and
      the current time. */
  function LangchainToPydantic(m: LcMessage, freshId: string, now: int): (r: ChatMessage)
    ensures r.msgType == (match m.cls
                          case HumanClass => Human
                          case AiClass => Ai
                          case SystemClass => System
                          case OtherClass(_) => System)
    ensures r.content == m.content && r.metadata == m.additionalKwargs
    ensures r.id == freshId && r.timestamp == now
  {
    var t := match m.cls
      case HumanClass => Human
      case AiClass => Ai
      case SystemClass => System
      case OtherClass(_) => System;
    ChatMessage(freshId, t, m.content, now, m.additionalKwargs)
  }

  /** Converting to the library form and back keeps type, content and
      metadata; only the id and the timestamp are new. */
  lemma RoundTrip(m: ChatMessage, freshId: string, now: int)
    ensures var back := LangchainToPydantic(PydanticToLangchain(m), freshId, now);
      back.msgType == m.msgType && back.content == m.content && back.metadata == m.metadata
  {
  }

  /** `messages_to_langchain` */
  function MessagesToLangchain(ms: seq<ChatMessage>): (r: seq<LcMessage>)
    ensures |r| == |ms|
    ensures forall i :: 0 <= i < |ms| ==> r[i] == PydanticToLangchain(ms[i])
  {
    seq(|ms|, i requires 0 <= i < |ms| => PydanticToLangchain(ms[i]))
  }

  /** `messages_from_langchain`; `freshId(i)` is the id minted for the i-th message. */
  function MessagesFromLangchain(ms: seq<LcMessage>, freshId: nat -> string, now: int): (r: seq<ChatMessage>)
    ensures |r| == |ms|
    ensures forall i :: 0 <= i < |ms| ==> r[i] == LangchainToPydantic(ms[i], freshId(i), now)
  {
    seq(|ms|, i requires 0 <= i < |ms| => LangchainToPydantic(ms[i], freshId(i), now))
  }

  /** The list round trip preserves length, order, and every message's type,
      content and metadata. */
  lemma ListRoundTrip(ms: seq<ChatMessage>, freshId: nat -> string, now: int)
    ensures var back := MessagesFromLangchain(MessagesToLangchain(ms), freshId, now);
      |back| == |ms| &&
      forall i :: 0 <= i < |ms| ==>
        back[i].msgType == ms[i].msgType && back[i].content == ms[i].content && back[i].metadata == ms[i].metadata
  {
    var back := MessagesFromLangchain(MessagesToLangchain(ms), freshId, now);
    forall i | 0 <= i < |ms|
      ensures back[i].msgType == ms[i].msgType && back[i].content == ms[i].content && back[i].metadata == ms[i].metadata
    {
      RoundTrip(ms[i], freshId(i), now);
    }
  }

  /** Python's `metadata or {}` for an optional dict argument. */
  function MetadataOrEmpty(metadata: Option<map<string, Value>>): map<string, Value> {
    match metadata
    case None => map[]
    case Some(d) => d
  }

  /** `create_system_message`, `create_ai_message` and `create_human_message`:
      a message of the named type whose metadata is the given dict, or empty
      when none (or an empty one) is given. */
  function CreateMessage(t: MessageType, content: string, metadata: Option<map<string, Value>>, freshId: string, now: int): (m: ChatMessage)
    ensures m.msgType == t && m.content == content
    ensures metadata == None ==> m.metadata == map[]
    ensures metadata.Some? ==> m.metadata == metadata.value
    ensures m.id == freshId && m.timestamp == now
  {
    ChatMessage(freshId, t, content, now, MetadataOrEmpty(metadata))
  }

  function CreateSystemMessage(content: string, metadata: Option<map<string, Value>>, freshId: string, now: int): (m: ChatMessage)
    ensures m.msgType == System && m.content == content
    ensures m.metadata == MetadataOrEmpty(metadata)
  {
    CreateMessage(System, content, metadata, freshId, now)
  }

  function CreateAiMessage(content: string, metadata: Option<map<string, Value>>, freshId: string, now: int): (m: ChatMessage)
    ensures m.msgType == Ai && m.content == content
    ensures m.metadata == MetadataOrEmpty(metadata)
  {
    CreateMessage(Ai, content, metadata, freshId, now)
  }

  function CreateHumanMessage(content: string, metadata: Option<map<string, Value>>, freshId: string, now: int): (m: ChatMessage)
    ensures m.msgType == Human && m.content == content
    ensures m.metadata == MetadataOrEmpty(metadata)
  {
    CreateMessage(Human, content, metadata, freshId, now)
  }
}
