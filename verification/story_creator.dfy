/** The Story Creator agent: it writes chapters and hands over to the
    Gamemaster once it has presented the player's options. Its detector
    ignores the opening setup question even when that question also shows a
    marker. */
module StoryCreator {
  import opened Wrappers
  import opened Text
  import opened BaseAgent
  import PromptLoader

  /** Phrases of the opening setup question; any of them suppresses a transition. */
  const InitialQuestionMarkers: seq<string> := [
    "Möchtest du:",
    "A) Mir eigene Vorgaben geben",
    "B) Mich komplett frei eine Geschichte entwickeln lassen",
    "Was bevorzugst du?"]

  /** The markers announcing the player's options. */
  const TransitionMarkers: seq<string> := [
    "--- HANDLUNGSOPTIONEN ---",
    "HANDLUNGSOPTIONEN:",
    "Handlungsoptionen:"]

  const OptionsPresented := "handlungsoptionen_präsentiert"

  /** Some phrase of `markers` occurs in `response` (case-sensitively). */
  predicate AnyOccurs(response: string, markers: seq<string>) {
    exists k :: 0 <= k < |markers| && Contains(response, markers[k])
  }

  /** `any(m in response for m in markers)`, scanned in list order. */
  function FirstOccurring(response: string, markers: seq<string>): (r: bool)
    ensures r <==> AnyOccurs(response, markers)
  {
    if markers == [] then false
    else if Contains(response, markers[0]) then true
    else
      var rest := FirstOccurring(response, markers[1..]);
      assert AnyOccurs(response, markers[1..]) ==> AnyOccurs(response, markers) by {
        if AnyOccurs(response, markers[1..]) {
          var k :| 0 <= k < |markers[1..]| && Contains(response, markers[1..][k]);
          assert Contains(response, markers[k + 1]);
        }
      }
      assert AnyOccurs(response, markers) ==> AnyOccurs(response, markers[1..]) by {
        if AnyOccurs(response, markers) {
          var k :| 0 <= k < |markers| && Contains(response, markers[k]);
          assert k != 0;
          assert markers[1..][k - 1] == markers[k];
        }
      }
      rest
  }

  /** `detect_transition`: the opening question wins over every marker; a
      marker alone hands over to the Gamemaster with the fixed trigger;
      anything else stays put. */
  function DetectTransition(response: string): (t: Transition)
    ensures AnyOccurs(response, InitialQuestionMarkers) ==> t == NoTransition
    ensures !AnyOccurs(response, InitialQuestionMarkers) && AnyOccurs(response, TransitionMarkers) ==>
              t == Transition(true, Some(OptionsPresented))
    ensures !AnyOccurs(response, InitialQuestionMarkers) && !AnyOccurs(response, TransitionMarkers) ==>
              t == NoTransition
  {
    if FirstOccurring(response, InitialQuestionMarkers) then NoTransition
    else if FirstOccurring(response, TransitionMarkers) then Transition(true, Some(OptionsPresented))
    else NoTransition
  }

  /** `should_transition` is set exactly when a trigger is named. */
  lemma TransitionIffTrigger(response: string)
    ensures DetectTransition(response).shouldTransition <==> DetectTransition(response).trigger.Some?
  {
  }

  /** A chapter that ends with the options block, and asks nothing of the
      opening question, hands over. */
  lemma OptionsBlockHandsOver(story: string, options: string)
    requires !AnyOccurs(story + "--- HANDLUNGSOPTIONEN ---" + options, InitialQuestionMarkers)
    ensures DetectTransition(story + "--- HANDLUNGSOPTIONEN ---" + options) == Transition(true, Some(OptionsPresented))
  {
    ContainsInMiddle(story, "--- HANDLUNGSOPTIONEN ---", options);
    assert Contains(story + "--- HANDLUNGSOPTIONEN ---" + options, TransitionMarkers[0]);
  }

  /** The opening question suppresses the transition even when a marker is
      present too. */
  lemma QuestionSuppresses(before: string, after: string)
    ensures DetectTransition(before + "Was bevorzugst du?" + after) == NoTransition
  {
    ContainsInMiddle(before, "Was bevorzugst du?", after);
    assert Contains(before + "Was bevorzugst du?" + after, InitialQuestionMarkers[3]);
  }

  /** `load_prompt`: the prompt comes from `get_story_creator_prompt`, which
      never raises, so a failed read yields the loader's fixed fallback. */
  function LoadPrompt(file: Result<string, string>): (p: string)
    ensures file.Err? ==> p == PromptLoader.StoryCreatorFallback && p != []
    ensures file.Ok? ==> p == PromptLoader.ExtractedPrompt(file.value)
  {
    PromptLoader.GetStoryCreatorPrompt(file)
  }

  /** The Story Creator's `process_message`: the shared call with this
      agent's prompt and detector. */
  method ProcessMessage(systemPrompt: string, messages: seq<HistoryItem>, llm: Llm) returns (r: Result<AgentReply, string>)
    ensures r.Ok? ==> r.value.transition == DetectTransition(r.value.text)
    ensures r.Ok? <==> llm(FullMessages(systemPrompt, messages)).Ok?
    ensures r.Ok? ==> r.value.text == llm(FullMessages(systemPrompt, messages)).value
  {
    r := BaseAgent.ProcessMessage(systemPrompt, messages, llm, DetectTransition);
  }
}
