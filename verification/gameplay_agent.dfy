/** The gameplay agent: it tells the story, with the setup data handed over
    by the setup agent as extra context. It never hands over itself. */
module GameplayAgent {
  import opened Wrappers
  import opened Values
  import opened Converters
  import opened BaseAgent
  import PromptLoader

  const GameplayFallback := "Du bist ein Gameplay Agent für TextRPG. Erstelle eine fesselnde interaktive Geschichte."

  /** `load_prompt`: a failed read gives the fixed fallback. */
  function LoadPrompt(file: Result<string, string>): (p: string)
    ensures file.Err? ==> p == GameplayFallback && p != []
    ensures file.Ok? ==> p == PromptLoader.ExtractedPrompt(file.value)
  {
    PromptLoader.PromptOrFallback(file, GameplayFallback)
  }

  /** The optional "Setup-Kontext" message. `state.get("handoff_data")` must
      be a dict when truthy, since `.get` is called on it; anything else
      raises `AttributeError`. */
  function SetupContext(state: map<string, Value>, renderOther: Value -> string): (r: Result<Option<string>, string>)
    ensures !Truthy(Get(state, "handoff_data")) ==> r == Ok(None)
    ensures Truthy(Get(state, "handoff_data")) && !Get(state, "handoff_data").Obj? ==> r.Err?
    ensures Get(state, "handoff_data").Obj? ==>
      var inner := Get(Get(state, "handoff_data").fields, "handoff_data");
      r == Ok(if Truthy(inner) then Some("Setup-Kontext: " + PyStr(inner, renderOther)) else None)
  {
    var handoff := Get(state, "handoff_data");
    if !Truthy(handoff) then Ok(None)
    else if !handoff.Obj? then Err("'" + PyTypeName(handoff) + "' object has no attribute 'get'")
    else
      var inner := Get(handoff.fields, "handoff_data");
      if Truthy(inner) then Ok(Some("Setup-Kontext: " + PyStr(inner, renderOther))) else Ok(None)
  }

  /** The messages sent: the system prompt, the setup context when there is
      one, then the last ten history messages in order. */
  function GameplayMessages(systemPrompt: string, context: Option<string>, messages: seq<LcMessage>): (r: seq<RoleMessage>)
    ensures |r| >= 1 && r[0] == RoleMessage(SystemRole, systemPrompt)
    ensures context.Some? ==> |r| >= 2 && r[1] == RoleMessage(SystemRole, context.value)
    ensures var k := if context.Some? then 2 else 1;
      |r| == k + |LastWindow(messages)| && r[k..] == Turns(LastWindow(messages))
  {
    [RoleMessage(SystemRole, systemPrompt)]
      + (if context.Some? then [RoleMessage(SystemRole, context.value)] else [])
      + Turns(LastWindow(messages))
  }

  /** `process_message`: the request is built step by step, then the reply
      text is returned as is. A malformed `handoff_data` or an LLM error
      propagates. */
  method ProcessMessage(systemPrompt: string, messages: seq<LcMessage>, state: map<string, Value>,
                        llm: Llm, renderOther: Value -> string)
    returns (r: Result<string, string>)
    ensures SetupContext(state, renderOther).Err? ==> r == Err(SetupContext(state, renderOther).error)
    ensures SetupContext(state, renderOther).Ok? ==>
      r == llm(GameplayMessages(systemPrompt, SetupContext(state, renderOther).value, messages))
  {
    var llmMessages := [RoleMessage(SystemRole, systemPrompt)];
    var context := SetupContext(state, renderOther);
    if context.Err? {
      return Err(context.error);
    }
    if context.value.Some? {
      llmMessages := llmMessages + [RoleMessage(SystemRole, context.value.value)];
    }
    llmMessages := AppendWindow(llmMessages, messages);
    assert llmMessages == GameplayMessages(systemPrompt, context.value, messages);
    r := llm(llmMessages);
  }

  /** Setup data handed over by the setup agent always reaches the LLM as
      the second message. */
  lemma HandoffReachesLlm(state: map<string, Value>, setupData: map<string, Value>, renderOther: Value -> string)
    requires "handoff_data" in state
    requires state["handoff_data"] == Obj(map["type" := Str("silent_handoff"), "handoff_data" := Obj(setupData)])
    requires setupData != map[]
    ensures SetupContext(state, renderOther) == Ok(Some("Setup-Kontext: " + renderOther(Obj(setupData))))
  {
  }
}
