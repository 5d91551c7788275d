/** Reply hygiene: the short hash of the last accepted reply, the duplicate
    and blocking checks built on it, and the normalisation of reply text
    (whitespace runs and repeated sentence punctuation). */
module MessageUtils {
  import opened Wrappers
  import opened Text
  import opened State

  /** An MD5 hex digest: 32 characters. */
  type Digest = d: string | |d| == 32 witness "00000000000000000000000000000000"

  /** `hashlib.md5(content.encode('utf-8')).hexdigest()`, not modelled. */
  type Md5 = string -> Digest

  /** `generate_message_hash`: the first eight digest characters. */
  function MessageHash(content: string, md5: Md5): (h: string)
    ensures |h| == 8 && h == md5(content)[..8]
  {
    md5(content)[..8]
  }

  /** A stored hash counts only when it is non-empty. */
  predicate HasHash(s: StateRecord) {
    s.lastMessageHash.Some? && s.lastMessageHash.value != []
  }

  /** `is_duplicate_response` */
  predicate IsDuplicate(s: StateRecord, content: string, md5: Md5)
    ensures IsDuplicate(s, content, md5) ==> HasHash(s) && |s.lastMessageHash.value| == 8
  {
    HasHash(s) && MessageHash(content, md5) == s.lastMessageHash.value
  }

  /** `deduplicate_message` */
  function Deduplicate(s: StateRecord, content: string, md5: Md5): (r: Option<string>)
    ensures r.None? <==> IsDuplicate(s, content, md5)
    ensures r.Some? ==> r.value == content
  {
    if IsDuplicate(s, content, md5) then None else Some(content)
  }

  /** Without a stored hash nothing is a duplicate. */
  lemma NoHashNoDuplicate(s: StateRecord, content: string, md5: Md5)
    requires !HasHash(s)
    ensures !IsDuplicate(s, content, md5)
    ensures Deduplicate(s, content, md5) == Some(content)
  {
  }

  /** `update_message_hash`: the state keeps the hash of the accepted
      content. */
  method UpdateMessageHash(state: ChatState, content: string, md5: Md5)
    modifies state
    ensures state.Snapshot() == old(state.Snapshot()).(lastMessageHash := Some(MessageHash(content, md5)))
  {
    state.SetMessageHash(MessageHash(content, md5));
  }

  /** Once a reply's hash is stored, the same reply is a duplicate and is
      blocked. */
  lemma AcceptedThenDuplicate(s: StateRecord, content: string, md5: Md5)
    ensures IsDuplicate(s.(lastMessageHash := Some(MessageHash(content, md5))), content, md5)
    ensures ShouldBlock(s.(lastMessageHash := Some(MessageHash(content, md5))), content, md5)
    ensures Deduplicate(s.(lastMessageHash := Some(MessageHash(content, md5))), content, md5) == None
  {
  }

  /** The lowercased words of a reply and how many distinct ones there are. */
  function ReplyWords(content: string): seq<string> {
    Words(ToLower(content))
  }

  function DistinctWords(ws: seq<string>): (n: nat)
    ensures n <= |ws|
  {
    ElemsCard(ws);
    |set w | w in ws|
  }

  /** Some word occurs twice. */
  predicate HasRepeat(ws: seq<string>) {
    exists i, j :: 0 <= i < j < |ws| && ws[i] == ws[j]
  }

  /** Without a repeated word, every word is distinct. */
  lemma NoRepeatAllDistinct(ws: seq<string>)
    ensures !HasRepeat(ws) ==> DistinctWords(ws) == |ws|
  {
    if !HasRepeat(ws) {
      DistinctCard(ws);
    }
  }

  /** More than 70% repeated words: `len(set(words)) / len(words) < 0.3`,
      written without division. A repetitive reply has five or more words
      and repeats one of them. */
  predicate Repetitive(content: string)
    ensures Repetitive(content) ==> |ReplyWords(content)| >= 5 && HasRepeat(ReplyWords(content))
  {
    var ws := ReplyWords(content);
    NoRepeatAllDistinct(ws);
    |ws| > 4 && 10 * DistinctWords(ws) < 3 * |ws|
  }

  /** `should_block_message` */
  predicate ShouldBlock(s: StateRecord, content: string, md5: Md5)
    ensures IsBlank(content) ==> ShouldBlock(s, content, md5)
    ensures !ShouldBlock(s, content, md5) ==> Deduplicate(s, content, md5) == Some(content)
  {
    StripSpec(content);
    if content == [] || |Strip(content)| < 10 then true
    else if IsDuplicate(s, content, md5) then true
    else Repetitive(content)
  }

  /** A reply with fewer than ten characters once stripped is blocked
      whatever the state. */
  lemma ShortBlocked(s: StateRecord, content: string, md5: Md5)
    requires |Strip(content)| < 10
    ensures ShouldBlock(s, content, md5)
  {
  }

  /** A reply that is long enough, new, and whose words are all different
      passes. */
  lemma DistinctWordsPass(s: StateRecord, content: string, md5: Md5)
    requires |Strip(content)| >= 10 && !IsDuplicate(s, content, md5)
    requires var ws := ReplyWords(content); forall i, j :: 0 <= i < j < |ws| ==> ws[i] != ws[j]
    ensures !ShouldBlock(s, content, md5)
  {
    DistinctCard(ReplyWords(content));
  }

  /** A reply of five or more words that is one word repeated is blocked. */
  lemma OneWordRepeatedBlocked(s: StateRecord, content: string, md5: Md5)
    requires var ws := ReplyWords(content); |ws| >= 5 && forall i :: 0 <= i < |ws| ==> ws[i] == ws[0]
    ensures ShouldBlock(s, content, md5)
  {
    var ws := ReplyWords(content);
    assert (set w | w in ws) == {ws[0]};
  }

  predicate IsPunct(c: char) {
    c == '.' || c == '!' || c == '?'
  }

  /** No two neighbouring characters both satisfy `p`. */
  predicate NoAdjacent(s: string, p: char -> bool) {
    forall i :: 0 <= i < |s| - 1 ==> !(p(s[i]) && p(s[i + 1]))
  }

  /** Every character satisfies `p`. */
  predicate All(s: string, p: char -> bool) {
    forall i :: 0 <= i < |s| ==> p(s[i])
  }

  /** A whitespace character is a plain space. */
  predicate PlainIfSpace(c: char) {
    IsSpace(c) ==> c == ' '
  }

  /** `re.sub(r'\s+', ' ', s)`: every whitespace run becomes one space. */
  function CollapseSpaces(s: string): (r: string)
    ensures r == [] <==> s == []
    ensures r != [] ==> (IsSpace(r[0]) <==> IsSpace(s[0]))
    decreases |s|
  {
    if s == [] then []
    else if IsSpace(s[0]) then " " + CollapseSpaces(LStrip(s))
    else [s[0]] + CollapseSpaces(s[1..])
  }

  /** After collapsing, whitespace occurs only as single plain spaces. */
  lemma {:induction false} CollapseSpacesShape(s: string)
    ensures All(CollapseSpaces(s), PlainIfSpace) && NoAdjacent(CollapseSpaces(s), IsSpace)
    decreases |s|
  {
    if s != [] {
      var r := CollapseSpaces(s);
      var tail := if IsSpace(s[0]) then LStrip(s) else s[1..];
      CollapseSpacesShape(tail);
      var rt := CollapseSpaces(tail);
      assert r == [if IsSpace(s[0]) then ' ' else s[0]] + rt;
      forall i | 0 <= i < |r| - 1 ensures !(IsSpace(r[i]) && IsSpace(r[i + 1])) {
        if i > 0 { assert r[i] == rt[i - 1] && r[i + 1] == rt[i]; }
      }
      forall i | 0 <= i < |r| ensures PlainIfSpace(r[i]) {
        if i > 0 { assert r[i] == rt[i - 1]; }
      }
    }
  }

  /** Collapsing keeps a non-space last character last. */
  lemma {:induction false} CollapseSpacesLast(s: string)
    requires s != [] && !IsSpace(s[|s| - 1])
    ensures var r := CollapseSpaces(s); r != [] && r[|r| - 1] == s[|s| - 1]
    decreases |s|
  {
    var tail := if IsSpace(s[0]) then LStrip(s) else s[1..];
    var x := if IsSpace(s[0]) then ' ' else s[0];
    assert CollapseSpaces(s) == [x] + CollapseSpaces(tail);
    if IsSpace(s[0]) {
      LStripKeepsLast(s);
    } else if tail == [] {
      return;
    }
    CollapseSpacesLast(tail);
  }

  /** Stripping leading whitespace keeps a non-space last character. */
  lemma {:induction false} LStripKeepsLast(s: string)
    requires s != [] && !IsSpace(s[|s| - 1])
    ensures var t := LStrip(s); t != [] && t[|t| - 1] == s[|s| - 1]
    decreases |s|
  {
    if IsSpace(s[0]) {
      var u := s[1..];
      assert |s| > 1 && u[|u| - 1] == s[|s| - 1];
      LStripKeepsLast(u);
    }
  }

  /** The length of the run of sentence punctuation at the start. */
  function PunctRun(s: string): (k: nat)
    ensures k <= |s|
    ensures forall i :: 0 <= i < k ==> IsPunct(s[i])
    ensures k == |s| || !IsPunct(s[k])
  {
    if s != [] && IsPunct(s[0]) then 1 + PunctRun(s[1..]) else 0
  }

  /** `re.sub(r'([.!?]){2,}', r'\1', s)`: every run of sentence punctuation
      becomes its last character. */
  function CollapsePunct(s: string): (r: string)
    ensures NoAdjacent(r, IsPunct)
    ensures r == [] <==> s == []
    ensures r != [] ==> (IsPunct(r[0]) <==> IsPunct(s[0])) && (!IsPunct(s[0]) ==> r[0] == s[0])
    decreases |s|
  {
    if s == [] then []
    else if IsPunct(s[0]) then
      var k := PunctRun(s);
      [s[k - 1]] + CollapsePunct(s[k..])
    else [s[0]] + CollapsePunct(s[1..])
  }

  /** Collapsing punctuation only drops characters, so any property every
      input character has, every output character has. */
  lemma {:induction false} CollapsePunctAll(s: string, p: char -> bool)
    requires All(s, p)
    ensures All(CollapsePunct(s), p)
    decreases |s|
  {
    if s != [] {
      var k := if IsPunct(s[0]) then PunctRun(s) else 1;
      var tail := s[k..];
      assert All(tail, p) by {
        forall i | 0 <= i < |tail| ensures p(tail[i]) { assert tail[i] == s[k + i]; }
      }
      CollapsePunctAll(tail, p);
      var rt := CollapsePunct(tail);
      var r := CollapsePunct(s);
      assert r == [s[k - 1]] + rt;
      forall i | 0 <= i < |r| ensures p(r[i]) {
        if i > 0 { assert r[i] == rt[i - 1]; }
      }
    }
  }

  /** The last character stays last. */
  lemma {:induction false} CollapsePunctLast(s: string)
    ensures var r := CollapsePunct(s); r != [] ==> r[|r| - 1] == s[|s| - 1]
    decreases |s|
  {
    if s != [] {
      var k := if IsPunct(s[0]) then PunctRun(s) else 1;
      var u := s[k..];
      CollapsePunctLast(u);
      var rt := CollapsePunct(u);
      assert CollapsePunct(s) == [s[k - 1]] + rt;
      if rt != [] {
        assert u[|u| - 1] == s[|s| - 1];
      } else {
        assert k == |s|;
      }
    }
  }

  lemma NoAdjacentSuffix(s: string, k: nat, p: char -> bool)
    requires k <= |s| && NoAdjacent(s, p)
    ensures NoAdjacent(s[k..], p)
  {
    var t := s[k..];
    forall i | 0 <= i < |t| - 1 ensures !(p(t[i]) && p(t[i + 1])) {
      assert t[i] == s[k + i] && t[i + 1] == s[k + i + 1];
    }
  }

  lemma NoAdjacentCons(c: char, t: string, p: char -> bool)
    requires NoAdjacent(t, p)
    requires t != [] && p(c) ==> !p(t[0])
    ensures NoAdjacent([c] + t, p)
  {
    var r := [c] + t;
    forall i | 0 <= i < |r| - 1 ensures !(p(r[i]) && p(r[i + 1])) {
      if i > 0 { assert r[i] == t[i - 1] && r[i + 1] == t[i]; }
    }
  }

  /** Characters no punctuation mark shares a class with are never brought
      together. */
  lemma {:induction false} CollapsePunctApart(s: string, p: char -> bool)
    requires forall c :: IsPunct(c) ==> !p(c)
    requires NoAdjacent(s, p)
    ensures NoAdjacent(CollapsePunct(s), p)
    decreases |s|
  {
    if s != [] {
      var k := if IsPunct(s[0]) then PunctRun(s) else 1;
      NoAdjacentSuffix(s, k, p);
      CollapsePunctApart(s[k..], p);
      var rt := CollapsePunct(s[k..]);
      assert CollapsePunct(s) == [s[k - 1]] + rt;
      if rt != [] && p(s[k - 1]) {
        assert k == 1 && s[k..][0] == s[1];
      }
      NoAdjacentCons(s[k - 1], rt, p);
    }
  }

  /** Sentence marks are not whitespace. */
  lemma PunctNotSpace()
    ensures forall c :: IsPunct(c) ==> !IsSpace(c)
  {
  }

  /** `clean_message_content`: never two sentence marks in a row, and empty
      exactly for a blank input. */
  function CleanContent(content: string): (r: string)
    ensures NoAdjacent(r, IsPunct)
    ensures r == [] <==> IsBlank(content)
  {
    StripSpec(content);
    CollapsePunct(CollapseSpaces(Strip(content)))
  }

  /** Cleaned text has no whitespace at either end, no whitespace other than
      single plain spaces, and no two sentence marks in a row. */
  lemma CleanShape(content: string)
    ensures var r := CleanContent(content);
      NoAdjacent(r, IsSpace) && All(r, PlainIfSpace) && NoAdjacent(r, IsPunct) &&
      (r == [] || (!IsSpace(r[0]) && !IsSpace(r[|r| - 1])))
  {
    StripSpec(content);
    var t := Strip(content);
    var c := CollapseSpaces(t);
    CollapseSpacesShape(t);
    if t != [] {
      CollapseSpacesLast(t);
    }
    CollapsePunctAll(c, PlainIfSpace);
    CollapsePunctLast(c);
    PunctNotSpace();
    CollapsePunctApart(c, IsSpace);
  }
}
