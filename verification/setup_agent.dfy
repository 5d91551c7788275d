/** The Setup agent: it talks the player through the game setup and, when the
    LLM signals completion with "[SETUP-COMPLETE]", hands over to the gameplay
    agent with a command that carries the extracted setup data. JSON parsing
    is a parameter. */
module SetupAgent {
  import opened Wrappers
  import opened Text
  import opened Values
  import opened Converters
  import opened BaseAgent
  import PromptLoader

  const SetupFallback := "Du bist ein Setup Agent für TextRPG."

  /** `load_prompt`: reading and extraction are in one `try`; a failed read
      gives the fixed fallback. */
  function LoadPrompt(file: Result<string, string>): (p: string)
    ensures file.Err? ==> p == SetupFallback && p != []
    ensures file.Ok? ==> p == PromptLoader.ExtractedPrompt(file.value)
  {
    PromptLoader.PromptOrFallback(file, SetupFallback)
  }

  /** The messages sent: the system prompt, then the last ten history
      messages in order, "human" as user and all others as assistant. */
  function SetupMessages(systemPrompt: string, messages: seq<LcMessage>): (r: seq<RoleMessage>)
    ensures r == [RoleMessage(SystemRole, systemPrompt)] + Turns(LastWindow(messages))
    ensures 1 <= |r| <= 1 + HistoryWindow
  {
    [RoleMessage(SystemRole, systemPrompt)] + Turns(LastWindow(messages))
  }

  /** JSON parsing of a text block: the object it denotes, or `None` when
      `json.loads` raises. */
  type JsonParser = string -> Option<map<string, Value>>

  /** The regex `\{[^}]+\}` matches at `i`: a `{`, then at least one
      character before the next `}`. */
  predicate BraceMatchAt(s: string, i: int) {
    0 <= i && i + 1 < |s| && s[i] == '{' && s[i + 1] != '}' && '}' in s[i + 1..]
  }

  /** End (exclusive) of the match at `i`: just past the first `}` after `i`. */
  function BraceMatchEnd(s: string, i: int): (e: int)
    requires BraceMatchAt(s, i)
    ensures i + 3 <= e <= |s| && s[e - 1] == '}'
    ensures forall k :: i < k < e - 1 ==> s[k] != '}'
  {
    var j := IndexOf(s[i + 1..], '}');
    assert j >= 1;
    i + 1 + j + 1
  }

  /** `re.search`: the leftmost position at or after `from` where the regex
      matches. */
  function SearchBrace(s: string, from: nat): (r: Option<nat>)
    ensures r.Some? ==> from <= r.value && BraceMatchAt(s, r.value)
    ensures r.Some? ==> forall k :: from <= k < r.value ==> !BraceMatchAt(s, k)
    ensures r.None? ==> forall k :: from <= k ==> !BraceMatchAt(s, k)
    decreases |s| - from
  {
    if from + 1 >= |s| then None
    else if BraceMatchAt(s, from) then Some(from)
    else SearchBrace(s, from + 1)
  }

  /** The matched block, if any. */
  function BraceBlock(s: string): (r: Option<string>)
    ensures r.Some? ==> |r.value| >= 3 && r.value[0] == '{' && r.value[|r.value| - 1] == '}'
    ensures r.Some? ==> '}' !in r.value[..|r.value| - 1]
  {
    match SearchBrace(s, 0)
    case None => None
    case Some(i) =>
      var e := BraceMatchEnd(s, i);
      var b := s[i..e];
      assert forall k :: 0 <= k < |b| - 1 ==> b[k] == s[i + k];
      Some(b)
  }

  /** The setup data used when no block is found or it does not parse. */
  const DefaultSetupData: map<string, Value> := map[
    "creation_mode" := Str("free"),
    "setting" := Str("agent_choice"),
    "difficulty" := Str("Standard")]

  /** `_extract_setup_data`: the parsed first brace block, or the default. */
  function ExtractSetupData(response: string, parse: JsonParser): (d: map<string, Value>)
    ensures BraceBlock(response) == None ==> d == DefaultSetupData
    ensures BraceBlock(response).Some? && parse(BraceBlock(response).value) == None ==> d == DefaultSetupData
    ensures BraceBlock(response).Some? && parse(BraceBlock(response).value).Some? ==>
              d == parse(BraceBlock(response).value).value
  {
    match BraceBlock(response)
    case None => DefaultSetupData
    case Some(block) =>
      match parse(block)
      case None => DefaultSetupData
      case Some(data) => data
  }

  /** A text without any brace at all always yields the default data. */
  lemma NoBraceGivesDefault(response: string, parse: JsonParser)
    requires '{' !in response
    ensures ExtractSetupData(response, parse) == DefaultSetupData
  {
  }

  /** An empty pair of braces never starts a match: the regex needs at
      least one character between them. */
  lemma EmptyBracesNeverMatch(s: string, i: int)
    requires 0 <= i && i + 1 < |s| && s[i] == '{' && s[i + 1] == '}'
    ensures !BraceMatchAt(s, i)
  {
  }

  /** Behind a leading "{}", the regex matches exactly where it matches in
      the rest, two positions later. */
  lemma BraceMatchShift(t: string, k: int)
    requires k >= 0
    ensures BraceMatchAt("{}" + t, k + 2) <==> BraceMatchAt(t, k)
  {
    var s := "{}" + t;
    if k + 1 < |t| {
      assert s[k + 3..] == t[k + 1..];
    }
  }

  /** The shift of a match position by `d`. */
  function ShiftedBy(r: Option<nat>, d: nat): Option<nat> {
    if r.None? then None else Some(r.value + d)
  }

  /** Behind a leading "{}", searching from `from + 2` finds the rest's
      match from `from`, two positions later. */
  lemma {:induction false} SearchBraceShiftFrom(t: string, from: nat)
    ensures SearchBrace("{}" + t, from + 2) == ShiftedBy(SearchBrace(t, from), 2)
    decreases |t| - from
  {
    if from + 1 < |t| {
      BraceMatchShift(t, from);
      if !BraceMatchAt(t, from) {
        SearchBraceShiftFrom(t, from + 1);
      }
    }
  }

  /** Behind a leading "{}", the leftmost match is the rest's leftmost
      match, two positions later. */
  lemma SearchBraceShift(t: string)
    ensures SearchBrace("{}" + t, 0) == ShiftedBy(SearchBrace(t, 0), 2)
  {
    SearchBraceShiftFrom(t, 0);
  }

  /** The block found at a shifted match ends two positions later too. */
  lemma BraceMatchEndShift(t: string, i: int)
    requires BraceMatchAt(t, i)
    ensures BraceMatchAt("{}" + t, i + 2) && BraceMatchEnd("{}" + t, i + 2) == BraceMatchEnd(t, i) + 2
  {
    BraceMatchShift(t, i);
    var s := "{}" + t;
    assert s[i + 3..] == t[i + 1..];
  }

  /** A leading empty pair of braces is skipped: the block found is the one
      the rest of the text yields. */
  lemma EmptyBracesSkipped(t: string)
    ensures BraceBlock("{}" + t) == BraceBlock(t)
  {
    SearchBraceShift(t);
    var r := SearchBrace(t, 0);
    if r.Some? {
      var s, i := "{}" + t, r.value;
      BraceMatchEndShift(t, i);
      var e := BraceMatchEnd(t, i);
      assert s[i + 2..e + 2] == t[i..e];
    }
  }

  const SetupCompleteMarker := "[SETUP-COMPLETE]"

  /** What the setup agent returns: the hand-over command, or the reply text. */
  datatype SetupOutcome =
    | GotoCommand(update: map<string, Value>, goto: string)
    | TextReply(text: string)

  /** The state update of the hand-over command. */
  function HandoffUpdate(setupData: map<string, Value>): (u: map<string, Value>)
    ensures u.Keys == {"current_agent", "story_phase", "handoff_data", "chapter_count", "interaction_count"}
    ensures u["current_agent"] == Str("gameplay_agent") && u["story_phase"] == Str("gameplay")
    ensures u["chapter_count"] == Int(0) && u["interaction_count"] == Int(0)
    ensures u["handoff_data"] == Obj(map[
      "type" := Str("silent_handoff"),
      "from_agent" := Str("setup_agent"),
      "to_agent" := Str("gameplay_agent"),
      "handoff_data" := Obj(setupData)])
  {
    map[
      "current_agent" := Str("gameplay_agent"),
      "story_phase" := Str("gameplay"),
      "handoff_data" := Obj(map[
        "type" := Str("silent_handoff"),
        "from_agent" := Str("setup_agent"),
        "to_agent" := Str("gameplay_agent"),
        "handoff_data" := Obj(setupData)]),
      "chapter_count" := Int(0),
      "interaction_count" := Int(0)]
  }

  /** `_check_setup_complete`: no command unless the marker is present; with
      it, the command to the gameplay agent carrying the extracted data. */
  function CheckSetupComplete(response: string, parse: JsonParser): (r: Option<SetupOutcome>)
    ensures r.None? <==> !Contains(response, SetupCompleteMarker)
    ensures r.Some? ==> r.value == GotoCommand(HandoffUpdate(ExtractSetupData(response, parse)), "gameplay_agent")
  {
    if !Contains(response, SetupCompleteMarker) then None
    else Some(GotoCommand(HandoffUpdate(ExtractSetupData(response, parse)), "gameplay_agent"))
  }

  /** `process_message`: builds the request in a loop, calls the LLM, and
      returns the command when the reply completes the setup, the reply text
      otherwise. An LLM error propagates. */
  method ProcessMessage(systemPrompt: string, messages: seq<LcMessage>, llm: Llm, parse: JsonParser)
    returns (r: Result<SetupOutcome, string>)
    ensures var reply := llm(SetupMessages(systemPrompt, messages));
      reply.Err? ==> r == Err(reply.error)
    ensures var reply := llm(SetupMessages(systemPrompt, messages));
      reply.Ok? && Contains(reply.value, SetupCompleteMarker) ==>
        r == Ok(GotoCommand(HandoffUpdate(ExtractSetupData(reply.value, parse)), "gameplay_agent"))
    ensures var reply := llm(SetupMessages(systemPrompt, messages));
      reply.Ok? && !Contains(reply.value, SetupCompleteMarker) ==> r == Ok(TextReply(reply.value))
  {
    var sent := AppendWindow([RoleMessage(SystemRole, systemPrompt)], messages);
    var reply := llm(sent);
    if reply.Err? {
      return Err(reply.error);
    }
    var content := reply.value;
    var command := CheckSetupComplete(content, parse);
    if command.Some? {
      r := Ok(command.value);
    } else {
      r := Ok(TextReply(content));
    }
  }
}
