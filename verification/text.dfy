/** The string operations the backend relies on from Python's `str` and `re`:
    `strip`, `lower`, `split()`, `split('\n')`/`'\n'.join`, `replace`, `in`
    (substring) and `startswith`, each defined on `seq<char>` with the
    properties the callers depend on proved once here. */
module Text {

  /** The characters for which Python's `str.isspace` (and the regex class
      `\s` on `str` patterns) holds: the ASCII whitespace and separator
      controls plus the Unicode space characters. */
  predicate IsSpace(c: char) {
    var n := c as int;
    n == 0x20 || 0x09 <= n <= 0x0D || 0x1C <= n <= 0x1F || n == 0x85 || n == 0xA0 || n == 0x1680 ||
    0x2000 <= n <= 0x200A || n == 0x2028 || n == 0x2029 || n == 0x202F || n == 0x205F || n == 0x3000
  }

  /** `not s.strip()`: the string is empty or made of whitespace only. */
  predicate IsBlank(s: string) {
    forall i :: 0 <= i < |s| ==> IsSpace(s[i])
  }

  /** `s.lstrip()` */
  function LStrip(s: string): (r: string)
    ensures |r| <= |s| && r == s[|s| - |r|..]
    ensures r == [] || !IsSpace(r[0])
    ensures IsBlank(s[..|s| - |r|])
  {
    if s != [] && IsSpace(s[0]) then
      var r := LStrip(s[1..]);
      assert s[1..][..|s[1..]| - |r|] == s[1..|s| - |r|];
      r
    else s
  }

  /** `s.rstrip()` */
  function RStrip(s: string): (r: string)
    ensures |r| <= |s| && r == s[..|r|]
    ensures r == [] || !IsSpace(r[|r| - 1])
    ensures IsBlank(s[|r|..])
  {
    if s != [] && IsSpace(s[|s| - 1]) then
      var r := RStrip(s[..|s| - 1]);
      BlankExtend(s, |r|);
      r
    else s
  }

  lemma BlankExtend(s: string, k: nat)
    requires k < |s| && IsBlank(s[..|s| - 1][k..]) && IsSpace(s[|s| - 1])
    ensures IsBlank(s[k..])
  {
    forall i | 0 <= i < |s| - k ensures IsSpace(s[k..][i]) {
      if i < |s| - 1 - k {
        assert s[k..][i] == s[..|s| - 1][k..][i];
      }
    }
  }

  /** `s.strip()` */
  function Strip(s: string): string {
    RStrip(LStrip(s))
  }

  /** What `strip` promises: the result is the slice of `s` starting after
      its leading whitespace, it neither starts nor ends with whitespace,
      and it is empty exactly when `s` is blank. */
  lemma StripSpec(s: string)
    ensures var k := |s| - |LStrip(s)|;
      k + |Strip(s)| <= |s| && Strip(s) == s[k..k + |Strip(s)|]
    ensures Strip(s) == [] || (!IsSpace(Strip(s)[0]) && !IsSpace(Strip(s)[|Strip(s)| - 1]))
    ensures Strip(s) == [] <==> IsBlank(s)
  {
    StripSlice(s);
    StripEmpty(s);
    StripEnds(s);
  }

  /** `s.strip() == t`, peeling one edge character at a time. */
  predicate StripsTo(s: string, t: string)
    decreases |s|
  {
    if s != [] && IsSpace(s[0]) then StripsTo(s[1..], t)
    else if s != [] && IsSpace(s[|s| - 1]) then StripsTo(s[..|s| - 1], t)
    else s == t
  }

  lemma {:induction false} StripsToSpec(s: string, t: string)
    ensures StripsTo(s, t) <==> Strip(s) == t
    decreases |s|
  {
    if s != [] && IsSpace(s[0]) {
      assert LStrip(s) == LStrip(s[1..]);
      StripsToSpec(s[1..], t);
    } else if s != [] && IsSpace(s[|s| - 1]) {
      var p := s[..|s| - 1];
      assert p[0] == s[0] && LStrip(p) == p && LStrip(s) == s;
      assert RStrip(s) == RStrip(p);
      StripsToSpec(p, t);
    } else {
      assert LStrip(s) == s && RStrip(s) == s;
    }
  }

  /** A string without whitespace at either end strips to itself. */
  lemma StripTrimmed(s: string)
    requires s == [] || (!IsSpace(s[0]) && !IsSpace(s[|s| - 1]))
    ensures Strip(s) == s
  {
    StripsToSpec(s, s);
  }

  lemma StripEnds(s: string)
    ensures Strip(s) == [] || (!IsSpace(Strip(s)[0]) && !IsSpace(Strip(s)[|Strip(s)| - 1]))
  {
    var l := LStrip(s);
    var r := RStrip(l);
    if r != [] {
      assert r[0] == l[0];
    }
  }

  lemma StripSlice(s: string)
    ensures var k := |s| - |LStrip(s)|;
      k + |Strip(s)| <= |s| && Strip(s) == s[k..k + |Strip(s)|]
  {
    var l := LStrip(s);
    var k := |s| - |l|;
    var r := RStrip(l);
    assert l == s[k..] && r == l[..|r|];
    SliceOfSuffix(s, k, |r|);
  }

  lemma SliceOfSuffix(s: string, k: nat, n: nat)
    requires k + n <= |s|
    ensures s[k..][..n] == s[k..k + n]
  {
  }

  lemma StripEmpty(s: string)
    ensures Strip(s) == [] <==> IsBlank(s)
  {
    var l := LStrip(s);
    var r := RStrip(l);
    var k := |s| - |l|;
    if r == [] {
      assert l[0..] == l;
      assert l == s[k..];
      StripBlank(s, k);
    }
  }

  lemma StripBlank(s: string, k: nat)
    requires k <= |s| && IsBlank(s[..k]) && IsBlank(s[k..])
    ensures IsBlank(s)
  {
    forall i | 0 <= i < |s| ensures IsSpace(s[i]) {
      if i < k { assert s[..k][i] == s[i]; } else { assert s[k..][i - k] == s[i]; }
    }
  }

  /** `s.startswith(p)` */
  predicate StartsWith(s: string, p: string) {
    |p| <= |s| && s[..|p|] == p
  }

  /** `p` occurs in `s` starting at index `i`. */
  predicate OccursAt(s: string, p: string, i: int) {
    0 <= i && i + |p| <= |s| && s[i..i + |p|] == p
  }

  /** Python's `p in s` for strings: a case-sensitive substring test. */
  predicate Contains(s: string, p: string) {
    exists i :: 0 <= i <= |s| - |p| && OccursAt(s, p, i)
  }

  lemma {:induction false} ContainsOfPrefixFree(s: string, p: string)
    requires p != [] && s != [] && !StartsWith(s, p)
    ensures Contains(s, p) <==> Contains(s[1..], p)
  {
    if Contains(s, p) {
      var i :| 0 <= i <= |s| - |p| && OccursAt(s, p, i);
      assert i != 0;
      assert s[1..][i - 1..i - 1 + |p|] == s[i..i + |p|];
      assert OccursAt(s[1..], p, i - 1);
    }
    if Contains(s[1..], p) {
      var i :| 0 <= i <= |s[1..]| - |p| && OccursAt(s[1..], p, i);
      assert s[i + 1..i + 1 + |p|] == s[1..][i..i + |p|];
      assert OccursAt(s, p, i + 1);
    }
  }

  /** Any string contains itself somewhere inside a longer concatenation. */
  lemma ContainsInMiddle(a: string, p: string, b: string)
    ensures Contains(a + p + b, p)
  {
    assert OccursAt(a + p + b, p, |a|);
  }

  /** The `str.lower()` mapping of one character, for ASCII and Latin-1 letters. */
  function LowerChar(c: char): char {
    if 'A' <= c <= 'Z' then (c as int + 32) as char
    else if '\U{00C0}' <= c <= '\U{00DE}' && c != '\U{00D7}' then (c as int + 32) as char
    else c
  }

  /** `s.lower()`, character by character. */
  function ToLower(s: string): (r: string)
    ensures |r| == |s| && forall i :: 0 <= i < |s| ==> r[i] == LowerChar(s[i])
  {
    seq(|s|, i requires 0 <= i < |s| => LowerChar(s[i]))
  }

  /** Number of leading characters of `s` that are not whitespace. */
  function WordLen(s: string): (n: nat)
    ensures n <= |s|
    ensures forall i :: 0 <= i < n ==> !IsSpace(s[i])
    ensures n == |s| || IsSpace(s[n])
  {
    if s == [] || IsSpace(s[0]) then 0 else 1 + WordLen(s[1..])
  }

  /** A non-empty run of non-whitespace characters. */
  predicate IsWord(w: string) {
    w != [] && forall i :: 0 <= i < |w| ==> !IsSpace(w[i])
  }

  /** Python's `s.split()` with no separator: the maximal runs of
      non-whitespace characters, in order. */
  function Words(s: string): (ws: seq<string>)
    ensures forall k :: 0 <= k < |ws| ==> IsWord(ws[k])
    decreases |s|
  {
    var t := LStrip(s);
    if t == [] then []
    else
      var n := WordLen(t);
      FirstWordIsWord(t);
      [t[..n]] + Words(t[n..])
  }

  lemma FirstWordIsWord(t: string)
    requires t != [] && !IsSpace(t[0])
    ensures IsWord(t[..WordLen(t)])
  {
    var n := WordLen(t);
    forall i | 0 <= i < n ensures !IsSpace(t[..n][i]) {
      assert t[..n][i] == t[i];
    }
  }

  /** `s.split()` is empty exactly when `s` is blank. */
  lemma WordsEmpty(s: string)
    ensures Words(s) == [] <==> IsBlank(s)
  {
    var t := LStrip(s);
    if t == [] {
      assert s[..|s|] == s;
    } else {
      assert s[|s| - |t|] == t[0];
    }
  }

  /** Index of the first `c` in `s`, or `|s|` when there is none. */
  function IndexOf(s: string, c: char): (i: nat)
    ensures i <= |s|
    ensures forall j :: 0 <= j < i ==> s[j] != c
    ensures i < |s| ==> s[i] == c
    ensures i == |s| <==> c !in s
  {
    if s == [] then 0 else if s[0] == c then 0 else 1 + IndexOf(s[1..], c)
  }

  /** Python's `s.split(c)` for a one-character separator: never empty; one
      more piece than there are separators. */
  function SplitOn(s: string, c: char): (parts: seq<string>)
    ensures |parts| >= 1
    ensures forall k :: 0 <= k < |parts| ==> c !in parts[k]
    decreases |s|
  {
    var i := IndexOf(s, c);
    if i == |s| then [s] else [s[..i]] + SplitOn(s[i + 1..], c)
  }

  /** Python's `c.join(parts)` for a one-character glue string. */
  function JoinWith(parts: seq<string>, c: char): string {
    if parts == [] then ""
    else if |parts| == 1 then parts[0]
    else parts[0] + [c] + JoinWith(parts[1..], c)
  }

  /** `c.join(s.split(c)) == s`. */
  lemma {:induction false} JoinSplit(s: string, c: char)
    ensures JoinWith(SplitOn(s, c), c) == s
    decreases |s|
  {
    var i := IndexOf(s, c);
    if i < |s| {
      var tail := SplitOn(s[i + 1..], c);
      assert SplitOn(s, c) == [s[..i]] + tail;
      JoinSplit(s[i + 1..], c);
      assert JoinWith(SplitOn(s, c), c) == s[..i] + [c] + JoinWith(tail, c);
      assert s == s[..i] + [c] + s[i + 1..];
    }
  }

  /** Dropping the first piece of a split and joining again leaves what
      follows the first separator, or nothing when there is no separator. */
  lemma JoinSplitTail(s: string, c: char)
    ensures JoinWith(SplitOn(s, c)[1..], c) == if c in s then s[IndexOf(s, c) + 1..] else ""
  {
    var i := IndexOf(s, c);
    if i < |s| {
      JoinSplit(s[i + 1..], c);
    }
  }

  /** Python's `s.replace(p, q)`: every non-overlapping occurrence of `p`,
      scanning left to right, is replaced by `q`. */
  function ReplaceAll(s: string, p: string, q: string): string
    requires p != []
    decreases |s|
  {
    if |s| < |p| then s
    else if s[..|p|] == p then q + ReplaceAll(s[|p|..], p, q)
    else [s[0]] + ReplaceAll(s[1..], p, q)
  }

  /** Replacing by something shorter never lengthens, and strictly shortens
      the string when `p` occurs in it. */
  lemma {:induction false} ReplaceAllShrinks(s: string, p: string, q: string)
    requires p != [] && |q| < |p|
    ensures |ReplaceAll(s, p, q)| <= |s|
    ensures Contains(s, p) ==> |ReplaceAll(s, p, q)| < |s|
    decreases |s|
  {
    if |s| < |p| {
    } else if s[..|p|] == p {
      ReplaceAllShrinks(s[|p|..], p, q);
    } else {
      ReplaceAllShrinks(s[1..], p, q);
      ContainsOfPrefixFree(s, p);
    }
  }

  /** A slice of a string that does not contain `p` does not contain it either. */
  lemma SliceKeepsAbsence(s: string, p: string, k: nat, m: nat)
    requires k <= m <= |s| && !Contains(s, p)
    ensures !Contains(s[k..m], p)
  {
    if Contains(s[k..m], p) {
      var i :| 0 <= i <= |s[k..m]| - |p| && OccursAt(s[k..m], p, i);
      assert s[k + i..k + i + |p|] == p by {
        forall j | 0 <= j < |p| ensures s[k + i..k + i + |p|][j] == p[j] {
          assert s[k..m][i..i + |p|][j] == p[j];
        }
      }
      assert OccursAt(s, p, k + i);
    }
  }

  /** Stripping cannot create an occurrence of `p`. */
  lemma StripKeepsAbsence(s: string, p: string)
    requires !Contains(s, p)
    ensures !Contains(Strip(s), p)
  {
    var l := LStrip(s);
    SliceKeepsAbsence(s, p, |s| - |l|, |s|);
    assert s[|s| - |l|..|s|] == l;
    SliceKeepsAbsence(l, p, 0, |RStrip(l)|);
  }

  const Digits := "0123456789"

  /** Python's `str(n)` for a natural number. */
  function NatToString(n: nat): (r: string)
    ensures r != [] && forall i :: 0 <= i < |r| ==> r[i] in Digits
  {
    if n < 10 then [Digits[n]] else NatToString(n / 10) + [Digits[n % 10]]
  }

  /** Python's `str(n)` for an integer. */
  function IntToString(n: int): (r: string)
    ensures r != []
  {
    if n < 0 then "-" + NatToString(-n) else NatToString(n)
  }

  /** A list without repetitions has as many distinct elements as entries. */
  lemma {:induction false} DistinctCard<T>(xs: seq<T>)
    requires forall i, j :: 0 <= i < j < |xs| ==> xs[i] != xs[j]
    ensures |set x | x in xs| == |xs|
  {
    if xs != [] {
      var last := xs[|xs| - 1];
      var init := xs[..|xs| - 1];
      DistinctCard(init);
      assert (set x | x in xs) == (set x | x in init) + {last};
      assert last !in (set x | x in init);
    }
  }

  /** A list has at most as many distinct elements as entries. */
  lemma {:induction false} ElemsCard<T>(xs: seq<T>)
    ensures |set x | x in xs| <= |xs|
  {
    if xs != [] {
      var init := xs[..|xs| - 1];
      ElemsCard(init);
      assert (set x | x in xs) == (set x | x in init) + {xs[|xs| - 1]};
    }
  }
}
