/**
 * Literal rewriting: `str.replace`, `re.sub(re.escape(p), r, s, flags=re.IGNORECASE)`,
 * and the three fixed regexes the formatters use (`\s+`, `^#+\s*` and a
 * `[...]{2,}` character-class run).  All substitutions scan left to right and
 * never overlap, as Python's do.
 */
module Rewrite {
  import opened Text

  /** The string as the matcher sees it: lower-cased when matching ignores case. */
  function Fold(s: string, fold: bool): (r: string)
    ensures |r| == |s|
  {
    if fold then Lower(s) else s
  }

  /** `p` occurs at `i` in `t`; with `fold`, ignoring ASCII case. */
  predicate Hit(t: string, p: string, i: int, fold: bool) {
    && 0 <= i && i + |p| <= |t|
    && Fold(t[i..i + |p|], fold) == Fold(p, fold)
  }

  /** Leftmost occurrence of `p` in `t` at or after `from`, or -1. */
  function FirstHit(t: string, p: string, from: nat, fold: bool): (k: int)
    ensures k == -1 || from <= k <= |t| - |p|
    ensures k == -1 ==> forall j | from <= j :: !Hit(t, p, j, fold)
    ensures k >= 0 ==> Hit(t, p, k, fold) && forall j | from <= j < k :: !Hit(t, p, j, fold)
    decreases |t| - from
  {
    if from + |p| > |t| then -1
    else if Hit(t, p, from, fold) then from
    else FirstHit(t, p, from + 1, fold)
  }

  /**
   * Every non-overlapping occurrence of `p`, leftmost first, replaced by `r`.
   * With `fold == false` this is `t.replace(p, r)`; with `fold == true` it is
   * `re.sub(re.escape(p), r, t, flags=re.IGNORECASE)` for a replacement without
   * backslashes.
   */
  function Replace(t: string, p: string, r: string, fold: bool): (u: string)
    requires |p| > 0
    ensures (forall j :: !Hit(t, p, j, fold)) ==> u == t
    decreases |t|
  {
    var k := FirstHit(t, p, 0, fold);
    if k < 0 then t
    else t[..k] + r + Replace(t[k + |p|..], p, r, fold)
  }

  // ---------------------------------------------------------------------
  // When does a replacement leave no occurrence of a word behind?

  /** A suffix of `r` of length `m` is a proper prefix of `q`. */
  predicate HeadOverlap(q: string, r: string, m: int) {
    0 < m < |q| && m <= |r| && r[|r| - m..] == q[..m]
  }

  /** A prefix of `r` of length `m` is a proper suffix of `q`. */
  predicate TailOverlap(q: string, r: string, m: int) {
    0 < m < |q| && m <= |r| && r[..m] == q[|q| - m..]
  }

  /**
   * Gluing `r` between two strings free of `q` can never create `q`: no end of
   * `r` overlaps an end of `q`, and neither contains the other.
   */
  predicate Compatible(q: string, r: string) {
    && (forall m | 0 < m < |q| :: !HeadOverlap(q, r, m))
    && (forall m | 0 < m < |q| :: !TailOverlap(q, r, m))
    && !Contains(r, q)
    && !Contains(q, r)
  }

  lemma ConcatAvoids(a: string, r: string, b: string, q: string)
    requires |q| > 0
    requires Compatible(q, r)
    requires !Contains(a, q) && !Contains(b, q)
    ensures !Contains(a + r + b, q)
  {
    var n, m := |a|, |r|;
    forall j | 0 <= j <= |a + r + b| - |q| ensures !MatchAt(a + r + b, q, j) {
      if j + |q| <= n {
        WindowInLeft(a, r, b, q, j);
      } else if j >= n + m {
        WindowInRight(a, r, b, q, j);
      } else if n <= j && j + |q| <= n + m {
        WindowInMiddle(a, r, b, q, j);
      } else if j < n && j + |q| <= n + m {
        assert !TailOverlap(q, r, j + |q| - n);
        WindowEndsInMiddle(a, r, b, q, j);
      } else if j < n {
        WindowCoversMiddle(a, r, b, q, j);
      } else {
        assert !HeadOverlap(q, r, n + m - j);
        WindowStartsInMiddle(a, r, b, q, j);
      }
    }
  }

  lemma WindowInLeft(a: string, r: string, b: string, q: string, j: int)
    requires 0 <= j && j + |q| <= |a| && !Contains(a, q)
    ensures !MatchAt(a + r + b, q, j)
  {
    assert !MatchAt(a, q, j);
    assert (a + r + b)[j..j + |q|] == a[j..j + |q|];
  }

  lemma WindowInRight(a: string, r: string, b: string, q: string, j: int)
    requires |a| + |r| <= j && !Contains(b, q)
    ensures !MatchAt(a + r + b, q, j)
  {
    var i := j - |a| - |r|;
    if j + |q| <= |a + r + b| {
      assert !MatchAt(b, q, i);
      assert (a + r + b)[j..j + |q|] == b[i..i + |q|];
    }
  }

  lemma WindowInMiddle(a: string, r: string, b: string, q: string, j: int)
    requires |a| <= j && j + |q| <= |a| + |r| && !Contains(r, q)
    ensures !MatchAt(a + r + b, q, j)
  {
    var i := j - |a|;
    assert !MatchAt(r, q, i);
    assert (a + r + b)[j..j + |q|] == r[i..i + |q|];
  }

  lemma WindowEndsInMiddle(a: string, r: string, b: string, q: string, j: int)
    requires 0 <= j < |a| < j + |q| <= |a| + |r|
    requires !TailOverlap(q, r, j + |q| - |a|)
    ensures !MatchAt(a + r + b, q, j)
  {
    var k := j + |q| - |a|;
    var w := (a + r + b)[j..j + |q|];
    assert w[|q| - k..] == r[..k];
  }

  lemma WindowCoversMiddle(a: string, r: string, b: string, q: string, j: int)
    requires 0 <= j < |a| && |a| + |r| < j + |q| <= |a| + |r| + |b|
    requires !Contains(q, r)
    ensures !MatchAt(a + r + b, q, j)
  {
    var i := |a| - j;
    var w := (a + r + b)[j..j + |q|];
    var s := a + r + b;
    forall x | 0 <= x < |r| ensures w[i..i + |r|][x] == r[x] {
      assert w[i..i + |r|][x] == s[|a| + x];
      assert (a + r)[|a| + x] == r[x];
    }
    assert w[i..i + |r|] == r;
    assert !MatchAt(q, r, i);
  }

  lemma WindowStartsInMiddle(a: string, r: string, b: string, q: string, j: int)
    requires |a| <= j < |a| + |r| < j + |q| <= |a| + |r| + |b|
    requires !HeadOverlap(q, r, |a| + |r| - j)
    ensures !MatchAt(a + r + b, q, j)
  {
    var k := |a| + |r| - j;
    var w := (a + r + b)[j..j + |q|];
    assert w[..k] == r[|r| - k..];
  }

  lemma FoldConcat(a: string, b: string, fold: bool)
    ensures Fold(a + b, fold) == Fold(a, fold) + Fold(b, fold)
  {
    if fold {
      LowerConcat(a, b);
    }
  }

  lemma FoldSlice(s: string, i: int, j: int, fold: bool)
    requires 0 <= i <= j <= |s|
    ensures Fold(s[i..j], fold) == Fold(s, fold)[i..j]
  {
    if fold {
      LowerSlice(s, i, j);
    }
  }

  /** An occurrence of `q` in the folded string is a hit of `q`, and conversely. */
  lemma MatchIsHit(t: string, q: string, j: int, fold: bool)
    requires 0 <= j && j + |q| <= |t|
    ensures MatchAt(Fold(t, fold), Fold(q, fold), j) <==> Hit(t, q, j, fold)
  {
    FoldSlice(t, j, j + |q|, fold);
  }

  /**
   * Replacing `p` by `r` leaves no `q` behind (as the matcher sees them),
   * provided `r` is compatible with `q` and `q` either is `p` or was absent.
   * This covers both `str.replace` and the case-insensitive `re.sub`.
   */
  lemma {:induction false} ReplaceAvoids(t: string, p: string, r: string, q: string, fold: bool)
    requires |p| > 0 && |q| > 0
    requires Compatible(Fold(q, fold), Fold(r, fold))
    requires Fold(q, fold) == Fold(p, fold) || !Contains(Fold(t, fold), Fold(q, fold))
    ensures !Contains(Fold(Replace(t, p, r, fold), fold), Fold(q, fold))
    decreases |t|
  {
    var k := FirstHit(t, p, 0, fold);
    if k < 0 {
      NoHitAvoids(t, p, q, fold);
    } else {
      var a, b := t[..k], t[k + |p|..];
      var tail := Replace(b, p, r, fold);
      ReplaceUnfold(t, p, r, fold, k);
      BeforeHitAvoids(t, p, q, k, fold);
      AfterHitAvoids(t, p, q, k, fold);
      ReplaceAvoids(b, p, r, q, fold);
      FoldConcatAvoids(a, r, tail, q, fold);
    }
  }

  lemma FoldConcatAvoids(a: string, r: string, b: string, q: string, fold: bool)
    requires |q| > 0
    requires Compatible(Fold(q, fold), Fold(r, fold))
    requires !Contains(Fold(a, fold), Fold(q, fold)) && !Contains(Fold(b, fold), Fold(q, fold))
    ensures !Contains(Fold(a + r + b, fold), Fold(q, fold))
  {
    ConcatAvoids(Fold(a, fold), Fold(r, fold), Fold(b, fold), Fold(q, fold));
    FoldConcat(a + r, b, fold);
    FoldConcat(a, r, fold);
  }

  lemma ReplaceUnfold(t: string, p: string, r: string, fold: bool, k: int)
    requires |p| > 0 && k == FirstHit(t, p, 0, fold) && k >= 0
    ensures Replace(t, p, r, fold) == t[..k] + r + Replace(t[k + |p|..], p, r, fold)
  {
  }

  lemma NoHitAvoids(t: string, p: string, q: string, fold: bool)
    requires forall j :: !Hit(t, p, j, fold)
    requires Fold(q, fold) == Fold(p, fold) || !Contains(Fold(t, fold), Fold(q, fold))
    ensures !Contains(Fold(t, fold), Fold(q, fold))
  {
    if Fold(q, fold) == Fold(p, fold) {
      forall j | 0 <= j <= |t| - |q| ensures !MatchAt(Fold(t, fold), Fold(q, fold), j) {
        MatchIsHit(t, q, j, fold);
        assert !Hit(t, p, j, fold);
      }
    }
  }

  /** The text before the leftmost hit holds no `q`. */
  lemma BeforeHitAvoids(t: string, p: string, q: string, k: int, fold: bool)
    requires 0 <= k <= |t| && |q| > 0
    requires forall j | 0 <= j < k :: !Hit(t, p, j, fold)
    requires Fold(q, fold) == Fold(p, fold) || !Contains(Fold(t, fold), Fold(q, fold))
    ensures !Contains(Fold(t[..k], fold), Fold(q, fold))
  {
    var a, fq := t[..k], Fold(q, fold);
    if fq != Fold(p, fold) {
      FoldSlice(t, 0, k, fold);
      assert t[0..k] == a;
      if Contains(Fold(a, fold), fq) {
        ContainsSlice(Fold(t, fold), 0, k, fq);
      }
    } else {
      forall j | 0 <= j <= |a| - |q| ensures !MatchAt(Fold(a, fold), fq, j) {
        MatchIsHit(a, q, j, fold);
        SliceOfSlice(t, 0, k, j, j + |q|);
        assert t[0..k] == a;
        assert !Hit(t, p, j, fold);
      }
    }
  }

  /** The text after a hit holds no `q` unless `q` is the pattern itself. */
  lemma AfterHitAvoids(t: string, p: string, q: string, k: int, fold: bool)
    requires 0 <= k && k + |p| <= |t|
    requires Fold(q, fold) == Fold(p, fold) || !Contains(Fold(t, fold), Fold(q, fold))
    ensures Fold(q, fold) == Fold(p, fold) || !Contains(Fold(t[k + |p|..], fold), Fold(q, fold))
  {
    var b, fq := t[k + |p|..], Fold(q, fold);
    if fq != Fold(p, fold) {
      FoldSlice(t, k + |p|, |t|, fold);
      assert t[k + |p|..|t|] == b;
      if Contains(Fold(b, fold), fq) {
        ContainsSlice(Fold(t, fold), k + |p|, |t|, fq);
      }
    }
  }

  /**
   * Where `y[i]` equals `x[0]`, one of the next two characters of `y` already
   * departs from `x` before `y` ends.
   */
  predicate DivergesAfter(x: string, y: string, i: int)
    requires 0 <= i < |y| && |x| >= 3
  {
    || (i + 1 < |y| && y[i + 1] != x[1])
    || (i + 2 < |y| && y[i + 2] != x[2])
  }

  /** A sufficient condition for `Compatible` that looks at most three characters ahead. */
  predicate Lookahead(q: string, r: string) {
    && |q| >= 3 && |r| >= 3
    && (forall i | 0 <= i < |r| :: r[i] == q[0] ==> DivergesAfter(q, r, i))
    && (forall i | 0 <= i < |q| :: q[i] == r[0] ==> DivergesAfter(r, q, i))
  }

  /** `y[i..]` cannot agree with `x` on `min(|x|, |y| - i)` characters. */
  lemma LookaheadWindow(x: string, y: string, i: int, n: int)
    requires |x| >= 3 && 0 <= i < |y| && 0 < n <= |x| && i + n <= |y|
    requires n < |x| ==> i + n == |y|
    requires y[i] == x[0] ==> DivergesAfter(x, y, i)
    ensures y[i..i + n] != x[..n]
  {
    var w, v := y[i..i + n], x[..n];
    if y[i] != x[0] {
      assert w[0] != v[0];
    } else if i + 1 < |y| && y[i + 1] != x[1] {
      assert w[1] != v[1];
    } else {
      assert w[2] != v[2];
    }
  }

  lemma LookaheadCompatible(q: string, r: string)
    requires Lookahead(q, r)
    ensures Compatible(q, r)
  {
    forall m | 0 < m < |q| && m <= |r| ensures !HeadOverlap(q, r, m) {
      LookaheadWindow(q, r, |r| - m, m);
    }
    forall m | 0 < m < |q| && m <= |r| ensures !TailOverlap(q, r, m) {
      LookaheadWindow(r, q, |q| - m, m);
    }
    forall i | 0 <= i <= |r| - |q| ensures !MatchAt(r, q, i) {
      LookaheadWindow(q, r, i, |q|);
    }
    forall i | 0 <= i <= |q| - |r| ensures !MatchAt(q, r, i) {
      LookaheadWindow(r, q, i, |r|);
    }
  }

  // ---------------------------------------------------------------------
  // Loops of `str.replace` over a fixed list

  /** `for p in ps: t = t.replace(p, "")`. */
  function RemoveAll(t: string, ps: seq<string>): (u: string)
    requires forall i | 0 <= i < |ps| :: |ps[i]| > 0
    ensures (forall i, j | 0 <= i < |ps| :: !Hit(t, ps[i], j, false)) ==> u == t
  {
    if |ps| == 0 then t
    else
      var u := RemoveAll(t, ps[..|ps| - 1]);
      Replace(u, ps[|ps| - 1], "", false)
  }

  /** `for p, r in rs: t = t.replace(p, r)`, in the list's order. */
  function ReplaceAll(t: string, rs: seq<(string, string)>): (u: string)
    requires forall i | 0 <= i < |rs| :: |rs[i].0| > 0
    ensures (forall i, j | 0 <= i < |rs| :: !Hit(t, rs[i].0, j, false)) ==> u == t
  {
    if |rs| == 0 then t
    else
      var u := ReplaceAll(t, rs[..|rs| - 1]);
      Replace(u, rs[|rs| - 1].0, rs[|rs| - 1].1, false)
  }

  /** One more pattern removes that pattern from what the earlier ones left. */
  lemma RemoveAllStep(t: string, ps: seq<string>, i: int)
    requires forall i | 0 <= i < |ps| :: |ps[i]| > 0
    requires 0 <= i < |ps|
    ensures RemoveAll(t, ps[..i + 1]) == Replace(RemoveAll(t, ps[..i]), ps[i], "", false)
  {
    assert ps[..i + 1][..i] == ps[..i];
  }

  /** One more pair replaces in what the earlier ones left. */
  lemma ReplaceAllStep(t: string, rs: seq<(string, string)>, i: int)
    requires forall i | 0 <= i < |rs| :: |rs[i].0| > 0
    requires 0 <= i < |rs|
    ensures ReplaceAll(t, rs[..i + 1]) == Replace(ReplaceAll(t, rs[..i]), rs[i].0, rs[i].1, false)
  {
    assert rs[..i + 1][..i] == rs[..i];
  }

  /** The removal loop itself, one pattern at a time. */
  method RemoveEach(t: string, ps: seq<string>) returns (u: string)
    requires forall i | 0 <= i < |ps| :: |ps[i]| > 0
    ensures u == RemoveAll(t, ps)
  {
    u := t;
    var i := 0;
    while i < |ps|
      invariant 0 <= i <= |ps|
      invariant u == RemoveAll(t, ps[..i])
    {
      RemoveAllStep(t, ps, i);
      u := Replace(u, ps[i], "", false);
      i := i + 1;
    }
    assert ps[..|ps|] == ps;
  }

  /** The replacement loop itself, one pair at a time. */
  method ReplaceEach(t: string, rs: seq<(string, string)>) returns (u: string)
    requires forall i | 0 <= i < |rs| :: |rs[i].0| > 0
    ensures u == ReplaceAll(t, rs)
  {
    u := t;
    var i := 0;
    while i < |rs|
      invariant 0 <= i <= |rs|
      invariant u == ReplaceAll(t, rs[..i])
    {
      ReplaceAllStep(t, rs, i);
      u := Replace(u, rs[i].0, rs[i].1, false);
      i := i + 1;
    }
    assert rs[..|rs|] == rs;
  }

  // ---------------------------------------------------------------------
  // Fixed regexes

  /** `re.sub(r"\s+", " ", s)`: every maximal whitespace run becomes one space. */
  function CollapseSpaces(s: string): (r: string)
    ensures |s| > 0 <==> |r| > 0
    ensures |s| > 0 ==> (IsSpace(s[0]) <==> r[0] == ' ')
    ensures SingleSpaced(r)
    decreases |s|
  {
    if |s| == 0 then ""
    else if IsSpace(s[0]) then
      var rest := CollapseSpaces(s[LeadingSpaces(s)..]);
      " " + rest
    else
      [s[0]] + CollapseSpaces(s[1..])
  }

  /** The only whitespace is the plain space, and no two spaces are adjacent. */
  predicate SingleSpaced(r: string) {
    && (forall i | 0 <= i < |r| :: IsSpace(r[i]) ==> r[i] == ' ')
    && (forall i | 0 <= i < |r| - 1 :: !(r[i] == ' ' && r[i + 1] == ' '))
  }

  /** The non-whitespace characters of `s`, in order. */
  function Visible(s: string): string {
    if |s| == 0 then ""
    else if IsSpace(s[0]) then Visible(s[1..])
    else [s[0]] + Visible(s[1..])
  }

  lemma {:induction false} VisibleLeadingSpaces(s: string, k: nat)
    requires k <= |s|
    requires forall i | 0 <= i < k :: IsSpace(s[i])
    ensures Visible(s[k..]) == Visible(s)
    decreases k
  {
    if k > 0 {
      VisibleLeadingSpaces(s, k - 1);
      assert s[k - 1..][1..] == s[k..];
    }
  }

  /** Collapsing whitespace keeps every other character, in order. */
  lemma {:induction false} CollapseKeepsVisible(s: string)
    ensures Visible(CollapseSpaces(s)) == Visible(s)
    decreases |s|
  {
    if |s| > 0 {
      if IsSpace(s[0]) {
        var k := LeadingSpaces(s);
        CollapseKeepsVisible(s[k..]);
        VisibleLeadingSpaces(s, k);
        assert (" " + CollapseSpaces(s[k..]))[1..] == CollapseSpaces(s[k..]);
      } else {
        CollapseKeepsVisible(s[1..]);
        assert ([s[0]] + CollapseSpaces(s[1..]))[1..] == CollapseSpaces(s[1..]);
      }
    }
  }

  /** Number of leading characters drawn from `cls`. */
  function LeadingIn(s: string, cls: set<char>): (k: nat)
    ensures k <= |s|
    ensures forall i | 0 <= i < k :: s[i] in cls
    ensures k < |s| ==> s[k] !in cls
  {
    if |s| > 0 && s[0] in cls then 1 + LeadingIn(s[1..], cls) else 0
  }

  /** `re.sub("[cls]{2,}", " ", s)`: every run of two or more class characters becomes one space. */
  function CollapseRuns(s: string, cls: set<char>): (r: string)
    requires ' ' !in cls
    ensures NoRun(r, cls)
    ensures |s| > 0 && s[0] in cls ==> |r| > 0 && r[0] in cls + {' '}
    ensures |s| > 0 && s[0] !in cls ==> |r| > 0 && r[0] == s[0]
    decreases |s|
  {
    if |s| == 0 then ""
    else if s[0] in cls && |s| > 1 && s[1] in cls then
      " " + CollapseRuns(s[LeadingIn(s, cls)..], cls)
    else
      [s[0]] + CollapseRuns(s[1..], cls)
  }

  /** No two adjacent characters of `r` belong to `cls`. */
  predicate NoRun(r: string, cls: set<char>) {
    forall i | 0 <= i < |r| - 1 :: !(r[i] in cls && r[i + 1] in cls)
  }

  /** `re.sub(r"^#+\s*", "", s)`: a leading run of `#` and the whitespace after it are dropped. */
  function StripHeading(s: string): (r: string)
    ensures |r| <= |s| && r == s[|s| - |r|..]
    ensures forall i | 0 <= i < |s| - |r| :: s[i] == '#' || IsSpace(s[i])
    ensures |s| > 0 && s[0] == '#' ==> |r| < |s| && (|r| > 0 ==> !IsSpace(r[0]))
    ensures |s| == 0 || s[0] != '#' ==> r == s
  {
    if |s| > 0 && s[0] == '#' then
      var h := LeadingIn(s, {'#'});
      var rest := s[h..];
      var t := rest[LeadingSpaces(rest)..];
      assert t == s[|s| - |t|..];
      t
    else s
  }
}
