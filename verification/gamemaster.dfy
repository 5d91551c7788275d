/** The Gamemaster agent: it plays out the player's actions and hands back to
    the Story Creator when a new chapter is due. */
module Gamemaster {
  import opened Wrappers
  import opened Text
  import opened BaseAgent
  import PromptLoader
  import StoryCreator

  const ChapterMarker := "--- STORY CREATOR ÜBERGANG ---"
  const NewChapterNeeded := "neues_kapitel_benötigt"

  /** `detect_transition`: the hand-back marker anywhere in the reply, and
      nothing else, triggers the new chapter. */
  function DetectTransition(response: string): (t: Transition)
    ensures Contains(response, ChapterMarker) <==> t == Transition(true, Some(NewChapterNeeded))
    ensures !Contains(response, ChapterMarker) ==> t == NoTransition
  {
    if Contains(response, ChapterMarker) then Transition(true, Some(NewChapterNeeded)) else NoTransition
  }

  /** There is no exclusion list: the marker counts even next to the Story
      Creator's opening question. */
  lemma MarkerAlwaysCounts(before: string, after: string)
    ensures DetectTransition(before + ChapterMarker + after) == Transition(true, Some(NewChapterNeeded))
  {
    ContainsInMiddle(before, ChapterMarker, after);
  }

  /** `load_prompt`: a failed read yields the loader's fixed fallback. */
  function LoadPrompt(file: Result<string, string>): (p: string)
    ensures file.Err? ==> p == PromptLoader.GamemasterFallback && p != []
    ensures file.Ok? ==> p == PromptLoader.ExtractedPrompt(file.value)
  {
    PromptLoader.GetGamemasterPrompt(file)
  }

  /** The Gamemaster's `process_message`. */
  method ProcessMessage(systemPrompt: string, messages: seq<HistoryItem>, llm: Llm) returns (r: Result<AgentReply, string>)
    ensures r.Ok? ==> r.value.transition == DetectTransition(r.value.text)
    ensures r.Ok? <==> llm(FullMessages(systemPrompt, messages)).Ok?
    ensures r.Ok? ==> r.value.text == llm(FullMessages(systemPrompt, messages)).value
  {
    r := BaseAgent.ProcessMessage(systemPrompt, messages, llm, DetectTransition);
  }
}
