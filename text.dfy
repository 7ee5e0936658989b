/**
 * Python string operations used by the pipeline, written out on `seq<char>`.
 * Case mapping is ASCII only; whitespace is the exact `str.isspace()` set,
 * which is also what the regex class `\s` and `str.strip()` use.
 */
module Text {

  /** `str.isspace()` for one character. */
  predicate IsSpace(c: char) {
    || c == ' '
    || ('\t' <= c <= '\r')
    || ('\U{1c}' <= c <= '\U{1f}')
    || c == '\U{85}' || c == '\U{a0}' || c == '\U{1680}'
    || ('\U{2000}' <= c <= '\U{200a}')
    || c == '\U{2028}' || c == '\U{2029}' || c == '\U{202f}' || c == '\U{205f}' || c == '\U{3000}'
  }

  predicate IsUpperChar(c: char) { 'A' <= c <= 'Z' }

  predicate IsLowerChar(c: char) { 'a' <= c <= 'z' }

  function LowerChar(c: char): char {
    if IsUpperChar(c) then (c as int + 32) as char else c
  }

  function UpperChar(c: char): char {
    if IsLowerChar(c) then (c as int - 32) as char else c
  }

  /** `str.lower()` (ASCII letters). */
  function Lower(s: string): (r: string)
    ensures |r| == |s|
    ensures forall i | 0 <= i < |s| :: r[i] == LowerChar(s[i])
  {
    seq(|s|, i requires 0 <= i < |s| => LowerChar(s[i]))
  }

  /** `str.upper()` (ASCII letters). */
  function Upper(s: string): (r: string)
    ensures |r| == |s|
    ensures forall i | 0 <= i < |s| :: r[i] == UpperChar(s[i])
  {
    seq(|s|, i requires 0 <= i < |s| => UpperChar(s[i]))
  }

  /** `str.capitalize()`: first character upper-cased, the rest lower-cased. */
  function Capitalize(s: string): (r: string)
    ensures |r| == |s|
    ensures |s| > 0 ==> r[0] == UpperChar(s[0]) && r[1..] == Lower(s[1..])
  {
    if |s| == 0 then "" else [UpperChar(s[0])] + Lower(s[1..])
  }

  predicate NoUpper(s: string) {
    forall i | 0 <= i < |s| :: !IsUpperChar(s[i])
  }

  lemma LowerOfLower(s: string)
    requires NoUpper(s)
    ensures Lower(s) == s
  {
  }

  lemma LowerIsLower(s: string)
    ensures NoUpper(Lower(s))
    ensures Lower(Lower(s)) == Lower(s)
  {
  }

  lemma LowerConcat(a: string, b: string)
    ensures Lower(a + b) == Lower(a) + Lower(b)
  {
  }

  lemma LowerSlice(s: string, i: int, j: int)
    requires 0 <= i <= j <= |s|
    ensures Lower(s[i..j]) == Lower(s)[i..j]
  {
  }

  // ---------------------------------------------------------------------
  // Substring containment (`p in t`)

  predicate MatchAt(t: string, p: string, i: int) {
    0 <= i && i + |p| <= |t| && t[i..i + |p|] == p
  }

  predicate Contains(t: string, p: string) {
    exists i | 0 <= i <= |t| - |p| :: MatchAt(t, p, i)
  }

  lemma ContainsIn(t: string, p: string, i: int)
    requires MatchAt(t, p, i)
    ensures Contains(t, p)
  {
  }

  lemma ContainsSelf(t: string)
    ensures Contains(t, t)
  {
    assert MatchAt(t, t, 0);
  }

  /** An occurrence inside a slice is an occurrence in the whole string. */
  lemma ContainsSlice(t: string, lo: int, hi: int, p: string)
    requires 0 <= lo <= hi <= |t|
    requires Contains(t[lo..hi], p)
    ensures Contains(t, p)
  {
    var i :| 0 <= i <= hi - lo - |p| && MatchAt(t[lo..hi], p, i);
    var x, y := t[lo..hi][i..i + |p|], t[lo + i..lo + i + |p|];
    assert forall k | 0 <= k < |p| :: x[k] == y[k];
    assert MatchAt(t, p, lo + i);
  }

  lemma SliceOfSlice(s: string, lo: int, hi: int, x: int, y: int)
    requires 0 <= lo <= hi <= |s| && 0 <= x <= y <= hi - lo
    ensures s[lo..hi][x..y] == s[lo + x..lo + y]
  {
    var u, v := s[lo..hi][x..y], s[lo + x..lo + y];
    assert forall i | 0 <= i < |u| :: u[i] == v[i];
  }

  lemma ContainsConcatLeft(a: string, b: string, p: string)
    requires Contains(a, p)
    ensures Contains(a + b, p)
  {
    assert (a + b)[..|a|] == a;
    ContainsSlice(a + b, 0, |a|, p);
  }

  lemma ContainsConcatRight(a: string, b: string, p: string)
    requires Contains(b, p)
    ensures Contains(a + b, p)
  {
    assert (a + b)[|a|..|a| + |b|] == b;
    ContainsSlice(a + b, |a|, |a| + |b|, p);
  }

  /** Case-insensitive containment of `p` in `t`, as `p.lower() in t.lower()`. */
  predicate ContainsFold(t: string, p: string) {
    Contains(Lower(t), Lower(p))
  }

  // ---------------------------------------------------------------------
  // `str.find(c)` / `str.rfind(c)`

  /** `s.find(c)`: first index of `c`, or -1. */
  function Find(s: string, c: char): (k: int)
    ensures -1 <= k < |s|
    ensures k == -1 <==> c !in s
    ensures k >= 0 ==> s[k] == c && c !in s[..k]
  {
    if |s| == 0 then -1
    else if s[0] == c then 0
    else
      var k := Find(s[1..], c);
      assert s == [s[0]] + s[1..];
      if k == -1 then -1 else k + 1
  }

  /** `s.rfind(c)`: last index of `c`, or -1. */
  function RFind(s: string, c: char): (k: int)
    ensures -1 <= k < |s|
    ensures k == -1 <==> c !in s
    ensures k >= 0 ==> s[k] == c && c !in s[k + 1..]
  {
    if |s| == 0 then -1
    else if s[|s| - 1] == c then |s| - 1
    else
      assert s == s[..|s| - 1] + [s[|s| - 1]];
      RFind(s[..|s| - 1], c)
  }

  // ---------------------------------------------------------------------
  // `str.strip()`

  /** Number of leading whitespace characters. */
  function LeadingSpaces(s: string): (k: nat)
    ensures k <= |s|
    ensures forall i | 0 <= i < k :: IsSpace(s[i])
    ensures k < |s| ==> !IsSpace(s[k])
  {
    if |s| > 0 && IsSpace(s[0]) then 1 + LeadingSpaces(s[1..]) else 0
  }

  /** Number of trailing whitespace characters. */
  function TrailingSpaces(s: string): (k: nat)
    ensures k <= |s|
    ensures forall i | |s| - k <= i < |s| :: IsSpace(s[i])
    ensures k < |s| ==> !IsSpace(s[|s| - k - 1])
  {
    if |s| > 0 && IsSpace(s[|s| - 1]) then 1 + TrailingSpaces(s[..|s| - 1]) else 0
  }

  /** `r` is `s` less `lo` leading and some trailing characters, all of them whitespace. */
  predicate TrimmedBy(s: string, r: string, lo: int) {
    && 0 <= lo <= |s| - |r|
    && r == s[lo..lo + |r|]
    && (forall i | 0 <= i < lo :: IsSpace(s[i]))
    && (forall i | lo + |r| <= i < |s| :: IsSpace(s[i]))
  }

  /** `s.strip()`: the longest slice without whitespace at either end. */
  function Strip(s: string): (r: string)
    ensures |r| > 0 ==> !IsSpace(r[0]) && !IsSpace(r[|r| - 1])
    ensures TrimmedBy(s, r, LeadingSpaces(s))
  {
    var lo, hi := LeadingSpaces(s), |s| - TrailingSpaces(s);
    if hi <= lo then
      assert TrimmedBy(s, [], lo);
      []
    else
      assert TrimmedBy(s, s[lo..hi], lo);
      s[lo..hi]
  }

  lemma StripOfStripped(s: string)
    requires |s| > 0 ==> !IsSpace(s[0]) && !IsSpace(s[|s| - 1])
    ensures Strip(s) == s
  {
  }

  lemma SpaceIsLower(c: char)
    ensures IsSpace(c) ==> LowerChar(c) == c
  {
  }

  /** A lower-cased word without whitespace at its ends survives stripping. */
  lemma StripKeepsWord(s: string, w: string)
    requires |w| > 0 && !IsSpace(w[0]) && !IsSpace(w[|w| - 1])
    requires Contains(Lower(s), w)
    ensures Contains(Lower(Strip(s)), w)
  {
    var r := Strip(s);
    var lo := LeadingSpaces(s);
    var ls := Lower(s);
    var i :| 0 <= i <= |s| - |w| && MatchAt(ls, w, i);
    MatchEnds(ls, w, i);
    SpaceIsLower(s[i]);
    SpaceIsLower(s[i + |w| - 1]);
    assert lo <= i;
    assert i + |w| <= lo + |r|;
    assert r == s[lo..lo + |r|];
    assert MatchAt(Lower(s), w, i);
    MatchInSlice(s, r, w, lo, i);
  }

  /** The first and last characters of a match are those of the pattern. */
  lemma MatchEnds(t: string, p: string, i: int)
    requires |p| > 0 && MatchAt(t, p, i)
    ensures t[i] == p[0] && t[i + |p| - 1] == p[|p| - 1]
  {
    assert t[i..i + |p|][0] == t[i];
    assert t[i..i + |p|][|p| - 1] == t[i + |p| - 1];
  }

  lemma MatchInSlice(s: string, r: string, w: string, lo: int, i: int)
    requires 0 <= lo <= i && i + |w| <= lo + |r| <= |s| && r == s[lo..lo + |r|]
    requires MatchAt(Lower(s), w, i)
    ensures MatchAt(Lower(r), w, i - lo)
  {
    forall m | 0 <= m < |w| ensures Lower(r)[i - lo + m] == w[m] {
      assert Lower(s)[i..i + |w|][m] == w[m];
      assert r[i - lo + m] == s[i + m];
    }
    assert Lower(r)[i - lo..i - lo + |w|] == w;
  }

  lemma StripIdempotent(s: string)
    ensures Strip(Strip(s)) == Strip(s)
  {
    StripOfStripped(Strip(s));
  }

  // ---------------------------------------------------------------------
  // `sep.join(parts)` and `s.split(c)`

  /** `sep.join(parts)`. */
  function Join(sep: string, parts: seq<string>): string {
    if |parts| == 0 then ""
    else if |parts| == 1 then parts[0]
    else parts[0] + sep + Join(sep, parts[1..])
  }

  /** `s.split(c)` for a single-character separator. */
  function Split(s: string, c: char): (parts: seq<string>)
    ensures |parts| > 0
    ensures Join([c], parts) == s
    ensures forall k | 0 <= k < |parts| :: c !in parts[k]
  {
    var k := Find(s, c);
    if k < 0 then [s]
    else
      var rest := Split(s[k + 1..], c);
      var parts := [s[..k]] + rest;
      JoinFront([c], s[..k], rest);
      assert s == s[..k] + [c] + s[k + 1..];
      assert forall j | 0 < j < |parts| :: parts[j] == rest[j - 1];
      parts
  }

  lemma JoinFront(sep: string, a: string, rest: seq<string>)
    requires |rest| > 0
    ensures Join(sep, [a] + rest) == a + sep + Join(sep, rest)
  {
    assert ([a] + rest)[1..] == rest;
  }

  /** `s` neither starts nor ends with `c`, and never has `c` twice in a row. */
  predicate SeparatedBy(s: string, c: char) {
    && |s| > 0 && s[0] != c && s[|s| - 1] != c
    && forall i | 0 <= i < |s| - 1 :: s[i] == c ==> s[i + 1] != c
  }

  /** Such a string splits into non-empty parts only. */
  lemma {:induction false} SplitNonEmpty(s: string, c: char)
    requires SeparatedBy(s, c)
    ensures forall p | p in Split(s, c) :: |p| > 0
    decreases |s|
  {
    var k := Find(s, c);
    if k >= 0 {
      var t := s[k + 1..];
      assert t[0] == s[k + 1] && t[|t| - 1] == s[|s| - 1];
      forall i | 0 <= i < |t| - 1 && t[i] == c ensures t[i + 1] != c {
        assert s[k + 1 + i] == c;
      }
      SplitNonEmpty(t, c);
    }
  }

  // ---------------------------------------------------------------------
  // Python slicing `s[:k]`, where a negative `k` counts from the end

  function SliceTo<T>(s: seq<T>, k: int): (r: seq<T>)
    ensures k >= 0 ==> |r| == if k <= |s| then k else |s|
    ensures k < 0 ==> |r| == if |s| + k >= 0 then |s| + k else 0
    ensures r == s[..|r|]
  {
    if k >= 0 then (if k <= |s| then s[..k] else s)
    else (if |s| + k >= 0 then s[..|s| + k] else [])
  }
}
