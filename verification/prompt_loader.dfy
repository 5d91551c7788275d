/** Turning a Markdown prompt file into the system prompt an agent sends:
    drop a leading `# ` title line, squeeze runs of blank lines, trim. The
    file itself is an input here: its text, or the error raised reading it. */
module PromptLoader {
  import opened Wrappers
  import opened Text

  const TripleNewline := "\n\n\n"
  const DoubleNewline := "\n\n"

  /** Drops the first line when it is a level-one Markdown heading. */
  function DropHeading(lines: seq<string>): (r: seq<string>)
    ensures |lines| > 0 && StartsWith(lines[0], "# ") ==> r == lines[1..]
    ensures !(|lines| > 0 && StartsWith(lines[0], "# ")) ==> r == lines
  {
    if |lines| > 0 && StartsWith(lines[0], "# ") then lines[1..] else lines
  }

  /** The fixed point of replacing every "\n\n\n" by "\n\n": what the rewrite
      loop leaves. Each round strictly shortens the text, so it stops. */
  function SqueezeBlankLines(s: string): (r: string)
    ensures !Contains(r, TripleNewline)
    ensures |r| <= |s|
    decreases |s|
  {
    if Contains(s, TripleNewline) then
      ReplaceAllShrinks(s, TripleNewline, DoubleNewline);
      SqueezeBlankLines(ReplaceAll(s, TripleNewline, DoubleNewline))
    else s
  }

  /** The text `extract_system_prompt` returns for `content`. */
  function ExtractedPrompt(content: string): string {
    if Strip(content) == [] then ""
    else Strip(SqueezeBlankLines(JoinWith(DropHeading(SplitOn(content, '\n')), '\n')))
  }

  /** `extract_system_prompt`, with its rewrite loop. */
  method ExtractSystemPrompt(content: string) returns (r: string)
    ensures r == ExtractedPrompt(content)
  {
    if Strip(content) == [] {
      return "";
    }
    var lines := SplitOn(content, '\n');
    if |lines| > 0 && StartsWith(lines[0], "# ") {
      lines := lines[1..];
    }
    var joined := JoinWith(lines, '\n');
    var cleaned := joined;
    while Contains(cleaned, TripleNewline)
      invariant SqueezeBlankLines(cleaned) == SqueezeBlankLines(joined)
      decreases |cleaned|
    {
      ReplaceAllShrinks(cleaned, TripleNewline, DoubleNewline);
      cleaned := ReplaceAll(cleaned, TripleNewline, DoubleNewline);
    }
    r := Strip(cleaned);
  }

  /** Blank input gives the empty prompt. */
  lemma BlankGivesEmpty(content: string)
    requires IsBlank(content)
    ensures ExtractedPrompt(content) == ""
  {
    StripEmpty(content);
  }

  /** The prompt never contains three newlines in a row and never starts or
      ends with whitespace. */
  lemma ExtractedPromptShape(content: string)
    ensures !Contains(ExtractedPrompt(content), TripleNewline)
    ensures var r := ExtractedPrompt(content);
      r == [] || (!IsSpace(r[0]) && !IsSpace(r[|r| - 1]))
  {
    if Strip(content) != [] {
      var squeezed := SqueezeBlankLines(JoinWith(DropHeading(SplitOn(content, '\n')), '\n'));
      assert ExtractedPrompt(content) == Strip(squeezed);
      StripEnds(squeezed);
      StripKeepsAbsence(squeezed, TripleNewline);
    } else {
      assert ExtractedPrompt(content) == "";
      assert !OccursAt("", TripleNewline, 0);
    }
  }

  /** The first line of the split is a heading exactly when the text itself
      starts with "# ". */
  lemma FirstLineHeading(content: string)
    ensures StartsWith(SplitOn(content, '\n')[0], "# ") <==> StartsWith(content, "# ")
  {
    var i := IndexOf(content, '\n');
    assert SplitOn(content, '\n')[0] == content[..i];
    if StartsWith(content, "# ") {
      assert content[0] == '#' && content[1] == ' ';
      assert i >= 2;
      assert content[..i][..2] == content[..2];
    }
    if StartsWith(content[..i], "# ") {
      assert content[..i][..2] == content[..2];
    }
  }

  /** What reaches the squeeze loop: the whole text, or, when it starts with
      a "# " heading, everything after the heading's line (nothing when the
      heading is the only line). */
  lemma HeadingDropped(content: string)
    ensures var joined := JoinWith(DropHeading(SplitOn(content, '\n')), '\n');
      joined == if !StartsWith(content, "# ") then content
                else if '\n' in content then content[IndexOf(content, '\n') + 1..]
                else ""
  {
    FirstLineHeading(content);
    JoinSplit(content, '\n');
    JoinSplitTail(content, '\n');
  }

  /** Loading a prompt with a fallback: the extracted prompt when the file
      could be read, the fixed fallback text when reading raised. */
  function PromptOrFallback(file: Result<string, string>, fallback: string): (r: string)
    ensures file.Err? ==> r == fallback
    ensures file.Ok? ==> r == ExtractedPrompt(file.value)
  {
    match file
    case Ok(raw) => ExtractedPrompt(raw)
    case Err(_) => fallback
  }

  const StoryCreatorFallback := "Du bist ein Story Creator für TextRPG Adventures. Erstelle fesselnde Geschichten."
  const GamemasterFallback := "Du bist ein Gamemaster für TextRPG Adventures. Verarbeite Spieleraktionen und biete Optionen."

  /** `get_story_creator_prompt`: never raises; a failed read gives the
      fixed, non-empty fallback. */
  function GetStoryCreatorPrompt(file: Result<string, string>): (r: string)
    ensures file.Err? ==> r == StoryCreatorFallback && r != []
    ensures file.Ok? ==> r == ExtractedPrompt(file.value)
  {
    PromptOrFallback(file, StoryCreatorFallback)
  }

  /** `get_gamemaster_prompt`: never raises; a failed read gives the fixed,
      non-empty fallback. */
  function GetGamemasterPrompt(file: Result<string, string>): (r: string)
    ensures file.Err? ==> r == GamemasterFallback && r != []
    ensures file.Ok? ==> r == ExtractedPrompt(file.value)
  {
    PromptOrFallback(file, GamemasterFallback)
  }
}
