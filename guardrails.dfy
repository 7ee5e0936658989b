/**
 * `SafetyGuardrails` (safety_guardrails.py): forbidden-term detection, the
 * case-insensitive neutralisation of five diagnostic words, violation
 * recording on the result dict, disclaimer injection and uncertainty
 * flagging, applied in that order to the pipeline's result.
 */
module Guardrails {
  import opened Wrappers
  import opened Text
  import opened Py
  import opened Rewrite

  // ---------------------------------------------------------------------
  // The fixed tables (lines 13-31)

  const DiagnosticTerms: seq<string> := [
    "diagnosis", "diagnose", "diagnosed", "diagnostic",
    "disease", "disorder", "syndrome", "condition",
    "pathology", "pathological", "pathologic"]

  const TreatmentTerms: seq<string> := [
    "prescribe", "prescription", "medication", "drug",
    "treatment", "treat", "therapy", "therapeutic",
    "surgery", "surgical", "procedure", "intervention"]

  const RequiredDisclaimers: seq<string> := [
    "This is a support tool, not a diagnostic system",
    "Always correlate with clinical examination",
    "Interpret in full clinical context"]

  // ---------------------------------------------------------------------
  // `check_forbidden_terms` (lines 34-44)

  /** The table scanned for a category: the diagnostic one exactly for "diagnostic". */
  function TableFor(category: string): seq<string> {
    if category == "diagnostic" then DiagnosticTerms else TreatmentTerms
  }

  /** The terms of `terms` that occur in `text`, in table order. */
  function Found(terms: seq<string>, text: string): (r: seq<string>)
    ensures |r| <= |terms|
  {
    if |terms| == 0 then []
    else
      var init, last := terms[..|terms| - 1], terms[|terms| - 1];
      Found(init, text) + (if Contains(text, last) then [last] else [])
  }

  /** A term is reported exactly when it is in the table and occurs in the text. */
  lemma {:induction false} FoundMeaning(terms: seq<string>, text: string)
    ensures forall t :: t in Found(terms, text) <==> t in terms && Contains(text, t)
  {
    if |terms| > 0 {
      var init, last := terms[..|terms| - 1], terms[|terms| - 1];
      FoundMeaning(init, text);
      assert terms == init + [last];
    }
  }

  /** The last term of a table is reported last, when it occurs. */
  lemma FoundLast(terms: seq<string>, text: string)
    requires |terms| > 0
    ensures Found(terms, text) == Found(terms[..|terms| - 1], text)
      + (if Contains(text, terms[|terms| - 1]) then [terms[|terms| - 1]] else [])
  {
  }

  /** Terms are reported in table order: those of an earlier part of the table come first. */
  lemma {:induction false} FoundSplit(terms: seq<string>, k: int, text: string)
    requires 0 <= k <= |terms|
    ensures Found(terms, text) == Found(terms[..k], text) + Found(terms[k..], text)
  {
    if k < |terms| {
      var n := |terms| - 1;
      var init, tail := terms[..n], terms[k..];
      var x := if Contains(text, terms[n]) then [terms[n]] else [];
      FoundSplit(init, k, text);
      assert init[..k] == terms[..k];
      assert tail[..|tail| - 1] == init[k..];
      assert tail[|tail| - 1] == terms[n];
      FoundLast(tail, text);
      FoundLast(terms, text);
      calc {
        Found(terms, text);
        Found(init, text) + x;
        (Found(terms[..k], text) + Found(init[k..], text)) + x;
        Found(terms[..k], text) + (Found(init[k..], text) + x);
        Found(terms[..k], text) + Found(tail, text);
      }
    } else {
      assert terms[..k] == terms;
    }
  }

  /** `check_forbidden_terms(text, category)`: the loop over the table, appending to `found`. */
  method CheckForbiddenTerms(text: string, category: string) returns (found: seq<string>)
    ensures found == Found(TableFor(category), Lower(text))
  {
    var forbidden := TableFor(category);
    var textLower := Lower(text);
    found := [];
    var i := 0;
    while i < |forbidden|
      invariant 0 <= i <= |forbidden|
      invariant found == Found(forbidden[..i], textLower)
    {
      assert forbidden[..i + 1][..i] == forbidden[..i];
      if Contains(textLower, forbidden[i]) {
        found := found + [forbidden[i]];
      }
      i := i + 1;
    }
    assert forbidden[..i] == forbidden;
  }

  // ---------------------------------------------------------------------
  // `sanitize_output` (lines 47-82)

  /** The replacements of lines 66-72, applied in this order. */
  const Neutral: seq<(string, string)> := [
    ("diagnosis", "clinical impression"),
    ("diagnose", "assess"),
    ("disease", "condition"),
    ("disorder", "presentation"),
    ("pathology", "clinical finding")]

  /** `str(item)` for each item of a list. */
  function Reprs(rt: Runtime, items: seq<Value>): (r: seq<string>)
    ensures |r| == |items|
    ensures forall i | 0 <= i < |items| :: r[i] == Str(rt, items[i])
  {
    seq(|items|, i requires 0 <= i < |items| => Str(rt, items[i]))
  }

  /**
   * Lines 50-63: a dict gives its full_summary, else raw_summary, else
   * clinical_impression, else `str(dict)`; a list is joined with spaces; a
   * string is kept; anything else is `str()`-ed when truthy and "" otherwise.
   */
  function Coerce(rt: Runtime, v: Value): (r: string)
    ensures v.VStr? ==> r == v.s
    ensures v.VList? ==> r == Join(" ", Reprs(rt, v.items))
    ensures v.VNone? ==> r == ""
  {
    match v
    case VDict(d) =>
      var x := GetOr(d, "full_summary", GetOr(d, "raw_summary", GetOr(d, "clinical_impression", VStr(Str(rt, v)))));
      if x.VStr? then x.s else StrIfTruthy(rt, x)
    case VList(items) => Join(" ", Reprs(rt, items))
    case VStr(s) => s
    case _ => StrIfTruthy(rt, v)
  }

  /** Every pattern is non-empty, so each substitution is defined. */
  predicate Patterns(table: seq<(string, string)>) {
    forall i | 0 <= i < |table| :: |table[i].0| > 0
  }

  /** The substitutions of `table`, first to last, each case-insensitive over the whole text. */
  function Neutralised(table: seq<(string, string)>, s: string): string
    requires Patterns(table)
  {
    if |table| == 0 then s
    else Neutralised(table[1..], Replace(s, table[0].0, table[0].1, true))
  }

  /** The text `sanitize_output(v)` returns. */
  function Sanitized(rt: Runtime, v: Value): string {
    Neutralised(Neutral, Coerce(rt, v))
  }

  /** `sanitize_output(text)`: the coercion, then the loop of lines 74-80 reassigning `sanitized`. */
  method SanitizeOutput(rt: Runtime, text: Value) returns (sanitized: string)
    ensures sanitized == Sanitized(rt, text)
  {
    sanitized := Coerce(rt, text);
    var replacements := Neutral;
    var i := 0;
    while i < |replacements|
      invariant 0 <= i <= |replacements|
      invariant Neutralised(replacements[i..], sanitized) == Sanitized(rt, text)
    {
      assert replacements[i..][1..] == replacements[i + 1..];
      sanitized := Replace(sanitized, replacements[i].0, replacements[i].1, true);
      i := i + 1;
    }
  }

  lemma NeutralPatterns()
    ensures Patterns(Neutral)
  {
  }

  /** No replacement of a later pattern can rebuild an earlier (or the same) pattern. */
  predicate Guarded(table: seq<(string, string)>) {
    forall i, j | 0 <= i <= j < |table| :: Compatible(Lower(table[i].0), Lower(table[j].1))
  }

  /** Substituting with replacements compatible with `q` never brings back an absent `q`. */
  lemma {:induction false} NeutralisedKeepsAbsent(table: seq<(string, string)>, s: string, q: string)
    requires Patterns(table) && |q| > 0
    requires forall j | 0 <= j < |table| :: Compatible(Lower(q), Lower(table[j].1))
    requires !Contains(Lower(s), Lower(q))
    ensures !Contains(Lower(Neutralised(table, s)), Lower(q))
  {
    if |table| > 0 {
      var s1 := Replace(s, table[0].0, table[0].1, true);
      ReplaceAvoids(s, table[0].0, table[0].1, q, true);
      NeutralisedKeepsAbsent(table[1..], s1, q);
    }
  }

  /** After the substitutions of a guarded table, none of its patterns is left, in any case. */
  lemma {:induction false} NeutralisedRemovesAll(table: seq<(string, string)>, s: string)
    requires Patterns(table) && Guarded(table)
    ensures forall i | 0 <= i < |table| :: !Contains(Lower(Neutralised(table, s)), Lower(table[i].0))
  {
    if |table| > 0 {
      var p, r := table[0].0, table[0].1;
      var s1 := Replace(s, p, r, true);
      var rest := table[1..];
      assert Guarded(rest) by {
        forall i, j | 0 <= i <= j < |rest| ensures Compatible(Lower(rest[i].0), Lower(rest[j].1)) {
          assert rest[i] == table[i + 1] && rest[j] == table[j + 1];
        }
      }
      NeutralisedRemovesAll(rest, s1);
      ReplaceAvoids(s, p, r, p, true);
      forall j | 0 <= j < |rest| ensures Compatible(Lower(p), Lower(rest[j].1)) {
        assert rest[j] == table[j + 1];
      }
      NeutralisedKeepsAbsent(rest, s1, p);
      forall i | 0 <= i < |table| ensures !Contains(Lower(Neutralised(table, s)), Lower(table[i].0)) {
        if i > 0 {
          assert table[i] == rest[i - 1];
        }
      }
    }
  }

  lemma DiagnosisLookahead()
    ensures Lookahead("diagnosis", "clinical impression") && Lookahead("diagnosis", "assess")
    ensures Lookahead("diagnosis", "condition")
  {
  }

  lemma DiagnosisLookaheadLater()
    ensures Lookahead("diagnosis", "presentation") && Lookahead("diagnosis", "clinical finding")
  {
  }

  lemma DiagnoseLookahead()
    ensures Lookahead("diagnose", "assess") && Lookahead("diagnose", "condition")
  {
  }

  lemma DiagnoseLookaheadLater()
    ensures Lookahead("diagnose", "presentation") && Lookahead("diagnose", "clinical finding")
  {
  }

  lemma DiseaseLookahead()
    ensures Lookahead("disease", "condition") && Lookahead("disease", "presentation")
    ensures Lookahead("disease", "clinical finding")
  {
  }

  lemma DisorderLookahead()
    ensures Lookahead("disorder", "presentation") && Lookahead("disorder", "clinical finding")
    ensures Lookahead("pathology", "clinical finding")
  {
  }

  /** Each pattern of the table looks incompatible with every replacement applied at or after it. */
  lemma NeutralLookahead(i: int, j: int)
    requires 0 <= i <= j < |Neutral|
    ensures Lookahead(Neutral[i].0, Neutral[j].1)
  {
    DiagnosisLookahead();
    DiagnosisLookaheadLater();
    DiagnoseLookahead();
    DiagnoseLookaheadLater();
    DiseaseLookahead();
    DisorderLookahead();
    assert i == 0 || i == 1 || i == 2 || i == 3 || i == 4;
    assert j == 0 || j == 1 || j == 2 || j == 3 || j == 4;
  }

  lemma NeutralLowerCase()
    ensures forall i | 0 <= i < |Neutral| :: NoUpper(Neutral[i].0) && NoUpper(Neutral[i].1)
  {
  }

  lemma NeutralGuarded()
    ensures Guarded(Neutral)
  {
    NeutralLowerCase();
    forall i, j | 0 <= i <= j < |Neutral| ensures Compatible(Lower(Neutral[i].0), Lower(Neutral[j].1)) {
      LowerOfLower(Neutral[i].0);
      LowerOfLower(Neutral[j].1);
      NeutralLookahead(i, j);
      LookaheadCompatible(Neutral[i].0, Neutral[j].1);
    }
  }

  /**
   * Whatever the input, the sanitised text contains none of the five
   * replaced words, in any ASCII letter case.
   */
  lemma SanitizedHasNoKey(rt: Runtime, v: Value)
    ensures forall i | 0 <= i < |Neutral| :: !Contains(Lower(Sanitized(rt, v)), Neutral[i].0)
  {
    NeutralGuarded();
    NeutralLowerCase();
    NeutralisedRemovesAll(Neutral, Coerce(rt, v));
    forall i | 0 <= i < |Neutral| ensures !Contains(Lower(Sanitized(rt, v)), Neutral[i].0) {
      LowerOfLower(Neutral[i].0);
    }
  }

  /** A character of `p` missing from `t` rules out every occurrence. */
  lemma MissingChar(t: string, p: string, k: int)
    requires 0 <= k < |p| && p[k] !in t
    ensures !Contains(t, p)
  {
    forall j | 0 <= j <= |t| - |p| ensures !MatchAt(t, p, j) {
      assert t[j..j + |p|][k] == t[j + k];
    }
  }

  /** Without an occurrence of the pattern, in any case, the substitution changes nothing. */
  lemma AbsentUnchanged(t: string, p: string, r: string)
    requires |p| > 0 && !Contains(Lower(t), Lower(p))
    ensures Replace(t, p, r, true) == t
  {
    forall j ensures !Hit(t, p, j, true) {
      if 0 <= j && j + |p| <= |t| {
        MatchIsHit(t, p, j, true);
      }
    }
  }

  /** A text holding none of the patterns, in any case, passes through the substitutions unchanged. */
  lemma {:induction false} NeutralisedUnchanged(table: seq<(string, string)>, s: string)
    requires Patterns(table)
    requires forall i | 0 <= i < |table| :: !Contains(Lower(s), Lower(table[i].0))
    ensures Neutralised(table, s) == s
  {
    if |table| > 0 {
      AbsentUnchanged(s, table[0].0, table[0].1);
      assert forall i | 0 <= i < |table[1..]| :: table[1..][i] == table[i + 1];
      NeutralisedUnchanged(table[1..], s);
    }
  }

  /** Substituting with two tables in turn is substituting with the joined table. */
  lemma {:induction false} NeutralisedConcat(a: seq<(string, string)>, b: seq<(string, string)>, s: string)
    requires Patterns(a) && Patterns(b)
    ensures Patterns(a + b)
    ensures Neutralised(a + b, s) == Neutralised(b, Neutralised(a, s))
  {
    assert forall i | 0 <= i < |a + b| :: (a + b)[i] == if i < |a| then a[i] else b[i - |a|];
    if |a| > 0 {
      assert (a + b)[1..] == a[1..] + b;
      assert forall i | 0 <= i < |a[1..]| :: a[1..][i] == a[i + 1];
      NeutralisedConcat(a[1..], b, Replace(s, a[0].0, a[0].1, true));
    } else {
      assert a + b == b;
    }
  }

  /** A text the first part of a table keeps, the second turns into `m` and the third keeps. */
  lemma NeutralisedThrough(a: seq<(string, string)>, b: seq<(string, string)>, c: seq<(string, string)>, s: string, m: string)
    requires Patterns(a + b + c)
    ensures Patterns(a) && Patterns(b) && Patterns(c)
    ensures Neutralised(a, s) == s && Neutralised(b, s) == m && Neutralised(c, m) == m ==>
      Neutralised(a + b + c, s) == m
  {
    SplitPatterns(a, b, c);
    NeutralisedConcat(a, b, s);
    NeutralisedConcat(a + b, c, s);
  }

  /** "diagnostic" holds none of the five replaced words. */
  lemma DiagnosticAvoidsKeys()
    ensures forall i | 0 <= i < |Neutral| :: !Contains("diagnostic", Neutral[i].0)
  {
    var t := "diagnostic";
    forall j | 0 <= j <= 1 ensures !MatchAt(t, "diagnosis", j) {
      if j == 0 {
        assert t[0..9][8] != "diagnosis"[8];
      } else {
        assert t[1..10][0] != "diagnosis"[0];
      }
    }
    MissingChar(t, "diagnose", 7);
    MissingChar(t, "disease", 3);
    MissingChar(t, "disorder", 4);
    MissingChar(t, "pathology", 0);
  }

  /** "diagnostic" is in the diagnostic table, yet no replacement touches it. */
  lemma DiagnosticSurvives(rt: Runtime)
    ensures Sanitized(rt, VStr("diagnostic")) == "diagnostic"
    ensures "diagnostic" in Found(DiagnosticTerms, Lower(Sanitized(rt, VStr("diagnostic"))))
  {
    var t := "diagnostic";
    LowerOfLower(t);
    NeutralLowerCase();
    DiagnosticAvoidsKeys();
    forall i | 0 <= i < |Neutral| ensures !Contains(Lower(t), Lower(Neutral[i].0)) {
      LowerOfLower(Neutral[i].0);
    }
    NeutralisedUnchanged(Neutral, t);
    ContainsSelf(t);
    FoundMeaning(DiagnosticTerms, t);
  }

  /** The parts of a table of non-empty patterns are tables of non-empty patterns. */
  lemma SplitPatterns(a: seq<(string, string)>, b: seq<(string, string)>, c: seq<(string, string)>)
    requires Patterns(a + b + c)
    ensures Patterns(a) && Patterns(b) && Patterns(c) && Patterns(a + b)
  {
    assert forall i | 0 <= i < |a| :: a[i] == (a + b + c)[i];
    assert forall i | 0 <= i < |b| :: b[i] == (a + b + c)[|a| + i];
    assert forall i | 0 <= i < |c| :: c[i] == (a + b + c)[|a| + |b| + i];
  }

  /** "disease" holds neither of the first two replaced words, and "condition" none of the last two. */
  lemma DiseaseAvoidsKeys()
    ensures forall i | 0 <= i < 2 :: !Contains("disease", Neutral[i].0)
    ensures forall i | 3 <= i < 5 :: !Contains("condition", Neutral[i].0)
  {
    MissingChar("disease", "diagnosis", 3);
    MissingChar("disease", "diagnose", 3);
    MissingChar("condition", "disorder", 2);
    MissingChar("condition", "pathology", 0);
  }

  lemma DiseaseLowerCase()
    ensures Lower("disease") == "disease" && Lower("condition") == "condition"
  {
    LowerOfLower("disease");
    LowerOfLower("condition");
  }

  /** The first two substitutions leave "disease" alone. */
  lemma DiseaseFront()
    ensures Patterns(Neutral[..2]) && Neutralised(Neutral[..2], "disease") == "disease"
  {
    var front := Neutral[..2];
    assert front == [("diagnosis", "clinical impression"), ("diagnose", "assess")];
    DiseaseLowerCase();
    NeutralLowerCase();
    DiseaseAvoidsKeys();
    forall i | 0 <= i < |front| ensures !Contains(Lower("disease"), Lower(front[i].0)) {
      assert front[i] == Neutral[i];
      LowerOfLower(Neutral[i].0);
    }
    NeutralisedUnchanged(front, "disease");
  }

  /** The last two substitutions leave "condition" alone. */
  lemma ConditionBack()
    ensures Patterns(Neutral[3..]) && Neutralised(Neutral[3..], "condition") == "condition"
  {
    var back := Neutral[3..];
    assert back == [("disorder", "presentation"), ("pathology", "clinical finding")];
    DiseaseLowerCase();
    NeutralLowerCase();
    DiseaseAvoidsKeys();
    forall i | 0 <= i < |back| ensures !Contains(Lower("condition"), Lower(back[i].0)) {
      assert back[i] == Neutral[i + 3];
      LowerOfLower(Neutral[i + 3].0);
    }
    NeutralisedUnchanged(back, "condition");
  }

  /** The third substitution turns "disease" into "condition". */
  lemma DiseaseMid()
    ensures Patterns(Neutral[2..3]) && Neutralised(Neutral[2..3], "disease") == "condition"
  {
    assert Neutral[2..3] == [("disease", "condition")];
    var t, c := "disease", "condition";
    assert Hit(t, "disease", 0, true);
    assert Replace(t, "disease", c, true) == c;
  }

  /** The diagnostic scan reports "condition" in "condition". */
  lemma ConditionFlagged()
    ensures "condition" in Found(DiagnosticTerms, Lower("condition"))
  {
    DiseaseLowerCase();
    ContainsSelf("condition");
    FoundMeaning(DiagnosticTerms, "condition");
  }

  /** "disease" is neutralised into "condition", which the diagnostic table lists too. */
  lemma DiseaseBecomesCondition(rt: Runtime)
    ensures Sanitized(rt, VStr("disease")) == "condition"
    ensures "condition" in Found(DiagnosticTerms, Lower(Sanitized(rt, VStr("disease"))))
  {
    assert Neutral == Neutral[..2] + Neutral[2..3] + Neutral[3..];
    NeutralPatterns();
    DiseaseFront();
    DiseaseMid();
    ConditionBack();
    NeutralisedThrough(Neutral[..2], Neutral[2..3], Neutral[3..], "disease", "condition");
    ConditionFlagged();
  }

  // ---------------------------------------------------------------------
  // `validate_output` (lines 85-144)

  const DiagnosticPrefix := "Diagnostic term found: "
  const TreatmentPrefix := "Treatment term found: "

  /** `[f"{prefix}{v}" for v in terms]`. */
  function Prefixed(prefix: string, terms: seq<string>): (r: seq<string>)
    ensures |r| == |terms|
    ensures forall i | 0 <= i < |terms| :: r[i] == prefix + terms[i]
  {
    seq(|terms|, i requires 0 <= i < |terms| => prefix + terms[i])
  }

  /** Lines 95-98: the summary's text, which a dict summary may give as any value. */
  function SummaryText(rt: Runtime, summary: Value): Value {
    match summary
    case VDict(d) => GetOr(d, "full_summary", GetOr(d, "raw_summary", VStr(Str(rt, summary))))
    case _ => VStr(StrIfTruthy(rt, summary))
  }

  /** Lines 101-104. */
  function MetaphorText(rt: Runtime, metaphor: Value): Value {
    match metaphor
    case VDict(d) => GetOr(d, "clinical_translation", VStr(""))
    case _ => VStr(StrIfTruthy(rt, metaphor))
  }

  /** Lines 107-110. */
  function RiskText(rt: Runtime, risk: Value): Value {
    match risk
    case VDict(d) => VStr(Str(rt, GetOr(d, "rationale", VStr(""))))
    case _ => VStr(StrIfTruthy(rt, risk))
  }

  /** Line 113: the summary, metaphor and risk texts, scanned in this order. */
  function TextFields(rt: Runtime, result: Entries): (r: seq<Value>)
    ensures |r| == 3
  {
    [ SummaryText(rt, GetOr(result, "summary", VStr(""))),
      MetaphorText(rt, GetOr(result, "metaphor", VDict([]))),
      RiskText(rt, GetOr(result, "risk", VDict([]))) ]
  }

  /** Lines 116-123 for one field: a non-empty string is scanned against both tables. */
  function FieldViolations(field: Value): (r: seq<string>)
    ensures !(field.VStr? && |field.s| > 0) ==> r == []
  {
    if field.VStr? && |field.s| > 0 then
      Prefixed(DiagnosticPrefix, Found(DiagnosticTerms, Lower(field.s)))
        + Prefixed(TreatmentPrefix, Found(TreatmentTerms, Lower(field.s)))
    else []
  }

  /** A message is recorded for a field exactly when it names a table term the field contains. */
  lemma FieldViolationsMeaning(field: Value, m: string)
    ensures m in FieldViolations(field) <==>
      field.VStr? && |field.s| > 0 &&
      ((exists t | t in DiagnosticTerms && Contains(Lower(field.s), t) :: m == DiagnosticPrefix + t) ||
       (exists t | t in TreatmentTerms && Contains(Lower(field.s), t) :: m == TreatmentPrefix + t))
  {
    if field.VStr? && |field.s| > 0 {
      var d := Found(DiagnosticTerms, Lower(field.s));
      var tr := Found(TreatmentTerms, Lower(field.s));
      FoundMeaning(DiagnosticTerms, Lower(field.s));
      FoundMeaning(TreatmentTerms, Lower(field.s));
      var a, b := Prefixed(DiagnosticPrefix, d), Prefixed(TreatmentPrefix, tr);
      if m in a {
        var i :| 0 <= i < |a| && a[i] == m;
        assert d[i] in d;
      }
      if m in b {
        var i :| 0 <= i < |b| && b[i] == m;
        assert tr[i] in tr;
      }
      if exists t | t in DiagnosticTerms && Contains(Lower(field.s), t) :: m == DiagnosticPrefix + t {
        var t :| t in DiagnosticTerms && Contains(Lower(field.s), t) && m == DiagnosticPrefix + t;
        var i :| 0 <= i < |d| && d[i] == t;
        assert a[i] == m;
      }
      if exists t | t in TreatmentTerms && Contains(Lower(field.s), t) :: m == TreatmentPrefix + t {
        var t :| t in TreatmentTerms && Contains(Lower(field.s), t) && m == TreatmentPrefix + t;
        var i :| 0 <= i < |tr| && tr[i] == t;
        assert b[i] == m;
      }
    }
  }

  /** The messages of all fields, field after field. */
  function AllViolations(fields: seq<Value>): (r: seq<string>)
    ensures forall m | m in r :: exists i | 0 <= i < |fields| :: m in FieldViolations(fields[i])
  {
    if |fields| == 0 then []
    else
      var init := fields[..|fields| - 1];
      var r := AllViolations(init) + FieldViolations(fields[|fields| - 1]);
      assert forall i | 0 <= i < |init| :: init[i] == fields[i];
      r
  }

  /** The violations `validate_output` finds in a result. */
  function Violations(rt: Runtime, result: Entries): seq<string> {
    AllViolations(TextFields(rt, result))
  }

  /** Lines 131-134: a key present with a truthy value gets that value sanitised. */
  function SanitizedKey(rt: Runtime, d: Entries, k: string): Entries {
    var v := GetOr(d, k, VNone);
    if Has(d, k) && Truthy(v) then Store(d, k, VStr(Sanitized(rt, v))) else d
  }

  /** Lines 135-138: a structured dict holding a clinical impression gets it sanitised. */
  function SanitizedStructured(rt: Runtime, d: Entries): Entries {
    var st := GetOr(d, "structured", VNone);
    if Has(d, "structured") && st.VDict? && Has(st.entries, "clinical_impression") then
      var ci := GetOr(st.entries, "clinical_impression", VNone);
      Store(d, "structured", VDict(Store(st.entries, "clinical_impression", VStr(Sanitized(rt, ci)))))
    else d
  }

  /** Lines 131-139: the dict summary after its three updates. */
  function SanitizedDict(rt: Runtime, d: Entries): Entries {
    SanitizedStructured(rt, SanitizedKey(rt, SanitizedKey(rt, d, "full_summary"), "raw_summary"))
  }

  /** Lines 129-142: a dict summary keeps its shape; any other summary becomes its sanitised text. */
  function SanitizedSummary(rt: Runtime, summary: Value): Value {
    match summary
    case VDict(d) => VDict(SanitizedDict(rt, d))
    case _ => VStr(Sanitized(rt, summary))
  }

  /** The result after `validate_output`. */
  function Validated(rt: Runtime, result: Entries): Entries {
    var v := Violations(rt, result);
    if |v| == 0 then result
    else
      Store(Store(result, "safety_violations", VList(Strs(v))),
            "summary", SanitizedSummary(rt, GetOr(result, "summary", VStr(""))))
  }

  /** Lines 115-123: each non-empty text scanned against both tables, extending `violations`. */
  method ScanFields(fields: seq<Value>) returns (violations: seq<string>)
    ensures violations == AllViolations(fields)
  {
    violations := [];
    var i := 0;
    while i < |fields|
      invariant 0 <= i <= |fields|
      invariant violations == AllViolations(fields[..i])
    {
      assert fields[..i + 1][..i] == fields[..i];
      var field := fields[i];
      if field.VStr? && |field.s| > 0 {
        var diagnostic := CheckForbiddenTerms(field.s, "diagnostic");
        var treatment := CheckForbiddenTerms(field.s, "treatment");
        violations := violations + Prefixed(DiagnosticPrefix, diagnostic) + Prefixed(TreatmentPrefix, treatment);
      }
      i := i + 1;
    }
    assert fields[..i] == fields;
  }

  /**
   * `validate_output(result)`: scans the three texts, then records the
   * violations and rewrites the summary in `result` itself.
   */
  method ValidateOutput(rt: Runtime, result: Dict)
    modifies result
    ensures result.entries == Validated(rt, old(result.entries))
  {
    var summaryData := result.Get("summary", VStr(""));
    var violations := ScanFields(TextFields(rt, result.entries));
    if |violations| > 0 {
      result.Set("safety_violations", VList(Strs(violations)));
      if summaryData.VDict? {
        var summary := SanitizeSummaryDict(rt, summaryData.entries);
        result.Set("summary", VDict(summary));
      } else {
        var text := SanitizeOutput(rt, summaryData);
        result.Set("summary", VStr(text));
      }
    }
  }

  /** Lines 131-134 on the summary dict: `data[k] = sanitize_output(data[k])` when present and truthy. */
  method SanitizeKeyOf(rt: Runtime, data: Dict, k: string)
    modifies data
    ensures data.entries == SanitizedKey(rt, old(data.entries), k)
  {
    if Has(data.entries, k) && Truthy(data.Get(k, VNone)) {
      var text := SanitizeOutput(rt, data.Get(k, VNone));
      data.Set(k, VStr(text));
    }
  }

  /** Lines 131-139 on the summary dict, updated key by key. */
  method SanitizeSummaryDict(rt: Runtime, d: Entries) returns (summary: Entries)
    ensures summary == SanitizedDict(rt, d)
  {
    var data := new Dict(d);
    SanitizeKeyOf(rt, data, "full_summary");
    SanitizeKeyOf(rt, data, "raw_summary");
    var structured := data.Get("structured", VNone);
    if Has(data.entries, "structured") && structured.VDict? && Has(structured.entries, "clinical_impression") {
      var inner := new Dict(structured.entries);
      var text := SanitizeOutput(rt, inner.Get("clinical_impression", VNone));
      inner.Set("clinical_impression", VStr(text));
      data.Set("structured", VDict(inner.entries));
    }
    summary := data.entries;
  }

  /** Violations are recorded only when some were found, and then exactly those. */
  lemma ViolationsRecorded(rt: Runtime, result: Entries)
    ensures |Violations(rt, result)| == 0 ==> Validated(rt, result) == result
    ensures |Violations(rt, result)| > 0 ==>
      Lookup(Validated(rt, result), "safety_violations") == Some(VList(Strs(Violations(rt, result))))
  {
    var v := Violations(rt, result);
    if |v| > 0 {
      var d := Store(result, "safety_violations", VList(Strs(v)));
      StoreLookup(result, "safety_violations", VList(Strs(v)), "safety_violations");
      StoreLookup(d, "summary", SanitizedSummary(rt, GetOr(result, "summary", VStr(""))), "safety_violations");
    }
  }

  /**
   * Only the summary is rewritten: every key but "summary" and
   * "safety_violations" keeps its value, so the metaphor and the risk,
   * though scanned, never change.
   */
  lemma OnlySummaryRewritten(rt: Runtime, result: Entries, k: string)
    requires k != "summary" && k != "safety_violations"
    ensures Lookup(Validated(rt, result), k) == Lookup(result, k)
  {
    var v := Violations(rt, result);
    if |v| > 0 {
      var d := Store(result, "safety_violations", VList(Strs(v)));
      StoreLookup(result, "safety_violations", VList(Strs(v)), k);
      StoreLookup(d, "summary", SanitizedSummary(rt, GetOr(result, "summary", VStr(""))), k);
    }
  }

  /** Sanitising one key changes no other, and leaves a falsy value as it is. */
  lemma SanitizedKeyLookup(rt: Runtime, d: Entries, k: string, x: string)
    ensures x != k || !Truthy(GetOr(d, k, VNone)) ==> Lookup(SanitizedKey(rt, d, k), x) == Lookup(d, x)
  {
    var v := GetOr(d, k, VNone);
    if Has(d, k) && Truthy(v) {
      StoreLookup(d, k, VStr(Sanitized(rt, v)), x);
    }
  }

  /** Sanitising the structured part changes no other key. */
  lemma SanitizedStructuredLookup(rt: Runtime, d: Entries, x: string)
    ensures x != "structured" ==> Lookup(SanitizedStructured(rt, d), x) == Lookup(d, x)
  {
    var st := GetOr(d, "structured", VNone);
    if Has(d, "structured") && st.VDict? && Has(st.entries, "clinical_impression") {
      var ci := GetOr(st.entries, "clinical_impression", VNone);
      StoreLookup(d, "structured", VDict(Store(st.entries, "clinical_impression", VStr(Sanitized(rt, ci)))), x);
    }
  }

  /**
   * In a dict summary only the full and raw summaries and the structured
   * part may change; a falsy full or raw summary is left as it is.
   */
  lemma SummaryDictKeepsOthers(rt: Runtime, d: Entries, k: string)
    ensures k != "full_summary" && k != "raw_summary" && k != "structured" ==>
      Lookup(SanitizedDict(rt, d), k) == Lookup(d, k)
    ensures !Truthy(GetOr(d, "full_summary", VNone)) ==>
      Lookup(SanitizedDict(rt, d), "full_summary") == Lookup(d, "full_summary")
    ensures !Truthy(GetOr(d, "raw_summary", VNone)) ==>
      Lookup(SanitizedDict(rt, d), "raw_summary") == Lookup(d, "raw_summary")
  {
    var d1 := SanitizedKey(rt, d, "full_summary");
    var d2 := SanitizedKey(rt, d1, "raw_summary");
    SanitizedStructuredLookup(rt, d2, k);
    SanitizedStructuredLookup(rt, d2, "full_summary");
    SanitizedStructuredLookup(rt, d2, "raw_summary");
    SanitizedKeyLookup(rt, d, "full_summary", k);
    SanitizedKeyLookup(rt, d1, "raw_summary", k);
    SanitizedKeyLookup(rt, d, "full_summary", "full_summary");
    SanitizedKeyLookup(rt, d1, "raw_summary", "full_summary");
    SanitizedKeyLookup(rt, d, "full_summary", "raw_summary");
    SanitizedKeyLookup(rt, d1, "raw_summary", "raw_summary");
    if !Truthy(GetOr(d, "raw_summary", VNone)) {
      assert GetOr(d1, "raw_summary", VNone) == GetOr(d, "raw_summary", VNone);
    }
  }

  /** A summary given as text comes back as a string free of the five replaced words. */
  lemma TextSummarySanitized(rt: Runtime, result: Entries)
    requires |Violations(rt, result)| > 0 && !GetOr(result, "summary", VStr("")).VDict?
    ensures exists s :: Lookup(Validated(rt, result), "summary") == Some(VStr(s)) &&
                        forall i | 0 <= i < |Neutral| :: !Contains(Lower(s), Neutral[i].0)
  {
    var summary := GetOr(result, "summary", VStr(""));
    var d := Store(result, "safety_violations", VList(Strs(Violations(rt, result))));
    StoreLookup(d, "summary", SanitizedSummary(rt, summary), "summary");
    SanitizedHasNoKey(rt, summary);
    assert Lookup(Validated(rt, result), "summary") == Some(VStr(Sanitized(rt, summary)));
  }

  // ---------------------------------------------------------------------
  // `add_disclaimers` (lines 147-156)

  /**
   * Lines 151-153 on the notes value: each disclaimer it does not hold is
   * appended. `in` is a substring test on a string and a key test on a
   * dict, and raises on None, booleans and numbers; only a list has
   * `append`. On a list this is `Merge`.
   */
  function WithDisclaimers(notes: Value, ds: seq<string>): (r: Result<Value, Error>)
    ensures notes.VList? ==> r == Success(VList(Merge(notes.items, ds)))
    ensures !notes.VList? && r.Success? ==> r.value == notes
  {
    if |ds| == 0 then Success(notes)
    else
      var prev :- WithDisclaimers(notes, ds[..|ds| - 1]);
      var present :- Member(ds[|ds| - 1], prev);
      if present then Success(prev) else Append(prev, VStr(ds[|ds| - 1]))
  }

  /** The result dict after `add_disclaimers`, or as it was when the call raises; a missing key reads as `[]`. */
  function AddDisclaimers(result: Entries): (o: Outcome)
    ensures o.error.Some? ==> o.state == result
  {
    match WithDisclaimers(GetOr(result, "notes", VList([])), RequiredDisclaimers)
    case Success(notes) => Outcome(Store(result, "notes", notes), None)
    case Failure(e) => Outcome(result, Some(e))
  }

  /** After a run that does not raise, the notes hold every disclaimer. */
  lemma {:induction false} DisclaimersHeld(notes: Value, ds: seq<string>)
    ensures WithDisclaimers(notes, ds).Success? ==>
      forall d | d in ds :: Member(d, WithDisclaimers(notes, ds).value) == Success(true)
  {
    if |ds| > 0 && WithDisclaimers(notes, ds).Success? {
      var init, last := ds[..|ds| - 1], ds[|ds| - 1];
      DisclaimersHeld(notes, init);
      var prev := WithDisclaimers(notes, init).value;
      var next := WithDisclaimers(notes, ds).value;
      forall d | d in ds ensures Member(d, next) == Success(true) {
        if d in init && next != prev {
          assert prev.VList? && next == VList(prev.items + [VStr(last)]);
        }
      }
    }
  }

  /** Notes that already hold every disclaimer are left as they are, whatever their type. */
  lemma {:induction false} DisclaimersSettled(notes: Value, ds: seq<string>)
    requires forall d | d in ds :: Member(d, notes) == Success(true)
    ensures WithDisclaimers(notes, ds) == Success(notes)
  {
    if |ds| > 0 {
      DisclaimersSettled(notes, ds[..|ds| - 1]);
      assert ds[|ds| - 1] in ds;
    }
  }

  /** An exception part-way through is the exception of the whole loop. */
  lemma {:induction false} DisclaimersFailureSticks(notes: Value, ds: seq<string>, k: int)
    requires 0 <= k <= |ds| && WithDisclaimers(notes, ds[..k]).Failure?
    ensures WithDisclaimers(notes, ds) == WithDisclaimers(notes, ds[..k])
    decreases |ds| - k
  {
    if k < |ds| {
      assert ds[..k + 1][..k] == ds[..k];
      DisclaimersFailureSticks(notes, ds, k + 1);
    } else {
      assert ds[..k] == ds;
    }
  }

  /** The exception raised: TypeError from `in` on None, a boolean or a number, else AttributeError from `append`. */
  lemma {:induction false} DisclaimersError(notes: Value, ds: seq<string>)
    ensures WithDisclaimers(notes, ds).Failure? ==>
      WithDisclaimers(notes, ds).error == if notes.VStr? || notes.VDict? then AttributeError else TypeError
  {
    if |ds| > 0 {
      DisclaimersError(notes, ds[..|ds| - 1]);
    }
  }

  /**
   * `add_disclaimers` raises exactly when the notes are not a list and miss
   * a disclaimer, and then changes nothing; otherwise every disclaimer is
   * in the notes afterwards.
   */
  lemma AddDisclaimersMeaning(result: Entries)
    ensures var notes := GetOr(result, "notes", VList([]));
      AddDisclaimers(result).error.None? <==>
        notes.VList? || forall d | d in RequiredDisclaimers :: Member(d, notes) == Success(true)
    ensures var notes := GetOr(result, "notes", VList([]));
      AddDisclaimers(result).error.Some? ==>
        AddDisclaimers(result) == Outcome(result, Some(if notes.VStr? || notes.VDict? then AttributeError else TypeError))
    ensures AddDisclaimers(result).error.None? ==>
      Has(AddDisclaimers(result).state, "notes") &&
      forall d | d in RequiredDisclaimers :: Member(d, GetOr(AddDisclaimers(result).state, "notes", VNone)) == Success(true)
  {
    var notes := GetOr(result, "notes", VList([]));
    DisclaimersHeld(notes, RequiredDisclaimers);
    DisclaimersError(notes, RequiredDisclaimers);
    if forall d | d in RequiredDisclaimers :: Member(d, notes) == Success(true) {
      DisclaimersSettled(notes, RequiredDisclaimers);
    }
    var r := WithDisclaimers(notes, RequiredDisclaimers);
    if r.Success? {
      StoreLookup(result, "notes", r.value, "notes");
    }
  }

  /**
   * On a list of notes (or none) the call never raises: the old notes stay
   * first, in order, and each missing disclaimer is appended once.
   */
  lemma DisclaimersOnList(result: Entries)
    requires GetOr(result, "notes", VList([])).VList?
    ensures var old_ := GetOr(result, "notes", VList([])).items;
      && AddDisclaimers(result).error.None?
      && Lookup(AddDisclaimers(result).state, "notes") == Some(VList(Merge(old_, RequiredDisclaimers)))
  {
    var notes := GetOr(result, "notes", VList([]));
    StoreLookup(result, "notes", VList(Merge(notes.items, RequiredDisclaimers)), "notes");
  }

  /** Running `add_disclaimers` again changes nothing. */
  lemma AddDisclaimersIdempotent(result: Entries)
    requires AddDisclaimers(result).error.None?
    ensures AddDisclaimers(AddDisclaimers(result).state) == AddDisclaimers(result)
  {
    var notes := GetOr(result, "notes", VList([]));
    var n := WithDisclaimers(notes, RequiredDisclaimers).value;
    var s := Store(result, "notes", n);
    DisclaimersHeld(notes, RequiredDisclaimers);
    StoreLookup(result, "notes", n, "notes");
    assert GetOr(s, "notes", VList([])) == n;
    DisclaimersSettled(n, RequiredDisclaimers);
    StoreSame(s, "notes", n);
  }

  /** Only the notes change. */
  lemma AddDisclaimersKeepsOthers(result: Entries, k: string)
    requires k != "notes"
    ensures Lookup(AddDisclaimers(result).state, k) == Lookup(result, k)
  {
    var r := WithDisclaimers(GetOr(result, "notes", VList([])), RequiredDisclaimers);
    if r.Success? {
      StoreLookup(result, "notes", r.value, k);
    }
  }

  /** The loop of lines 151-153 on the notes value: each missing disclaimer is appended, in order. */
  method AppendMissing(notes: Value, ds: seq<string>) returns (r: Result<Value, Error>)
    ensures r == WithDisclaimers(notes, ds)
  {
    var current := notes;
    var i := 0;
    while i < |ds|
      invariant 0 <= i <= |ds|
      invariant WithDisclaimers(notes, ds[..i]) == Success(current)
    {
      assert ds[..i + 1][..i] == ds[..i];
      var present := Member(ds[i], current);
      if present.Failure? {
        DisclaimersFailureSticks(notes, ds, i + 1);
        return Failure(present.error);
      }
      if !present.value {
        var appended := Append(current, VStr(ds[i]));
        if appended.Failure? {
          DisclaimersFailureSticks(notes, ds, i + 1);
          return Failure(appended.error);
        }
        current := appended.value;
      }
      i := i + 1;
    }
    assert ds[..i] == ds;
    r := Success(current);
  }

  /** `add_disclaimers(result)`: the loop on the notes, then `result["notes"] = notes`. */
  method AddDisclaimersTo(result: Dict) returns (error: Option<Error>)
    modifies result
    ensures result.entries == AddDisclaimers(old(result.entries)).state
    ensures error == AddDisclaimers(old(result.entries)).error
  {
    var notes := result.Get("notes", VList([]));
    var r := AppendMissing(notes, RequiredDisclaimers);
    if r.Failure? {
      return Some(r.error);
    }
    result.Set("notes", r.value);
    error := None;
  }

  // ---------------------------------------------------------------------
  // `enforce_uncertainty_flagging` (lines 159-201)

  const DefaultUncertainties: seq<string> := [
    "Symptom onset not clearly specified",
    "Severity and progression unclear",
    "Full clinical context required"]

  const NonClinicalMessage: string :=
    "Narrative appears non-clinical (e.g. general knowledge or non-health-related content); confirm context before interpreting output."

  /** Lines 168-176: the given uncertainties when truthy, else the three defaults. */
  function Uncertainties(result: Entries): (u: Value)
    ensures Truthy(u)
  {
    var given := Or(GetOr(result, "uncertainties", VList([])), VList([]));
    if Truthy(given) then given else VList(Strs(DefaultUncertainties))
  }

  /** Lines 181-186: the rationale, or the risk itself when it is not a dict, as lower-case text. */
  function RationaleText(rt: Runtime, risk: Value): (r: string)
    ensures NoUpper(r)
  {
    var text := if risk.VDict? then Str(rt, Or(GetOr(risk.entries, "rationale", VStr("")), VStr("")))
                else Str(rt, Or(risk, VStr("")));
    LowerIsLower(text);
    Lower(text)
  }

  /** Lines 188-191: the rationale says there is no clinical information. */
  predicate NonClinical(text: string) {
    Contains(text, "no clinical information") || Contains(text, "contains absolutely no clinical information")
  }

  /** The second phrase contains the first, so it never changes the outcome of the test. */
  lemma SecondPhraseRedundant(text: string)
    ensures NonClinical(text) <==> Contains(text, "no clinical information")
  {
    var long, short := "contains absolutely no clinical information", "no clinical information";
    if Contains(text, long) {
      var i :| 0 <= i <= |text| - |long| && MatchAt(text, long, i);
      assert text[i..i + |long|][20..] == short;
      assert MatchAt(text[i..i + |long|], short, 20);
      ContainsSlice(text, i, i + |long|, short);
    }
  }

  /** Lines 192-198 on the uncertainties: the message is appended unless already `in` them. */
  function Flagged(u: Value, nonClinical: bool): (r: Result<Value, Error>)
    ensures !nonClinical ==> r == Success(u)
    ensures u.VList? ==> r.Success? && r.value.VList?
    ensures Truthy(u) && r.Success? ==> Truthy(r.value)
  {
    if !nonClinical then Success(u)
    else
      var present :- Member(NonClinicalMessage, u);
      if present then Success(u) else Append(u, VStr(NonClinicalMessage))
  }

  /** The result dict after `enforce_uncertainty_flagging`, or as it was when the call raises. */
  function EnforceUncertainty(rt: Runtime, result: Entries): (o: Outcome)
    ensures o.error.Some? ==> o.state == result
  {
    var text := RationaleText(rt, GetOr(result, "risk", VDict([])));
    match Flagged(Uncertainties(result), NonClinical(text))
    case Success(u) => Outcome(Store(result, "uncertainties", u), None)
    case Failure(e) => Outcome(result, Some(e))
  }

  /** `enforce_uncertainty_flagging(result)`, assigning the local `uncertainties` step by step. */
  method EnforceUncertaintyOn(rt: Runtime, result: Dict) returns (error: Option<Error>)
    modifies result
    ensures result.entries == EnforceUncertainty(rt, old(result.entries)).state
    ensures error == EnforceUncertainty(rt, old(result.entries)).error
  {
    var uncertainties := Or(result.Get("uncertainties", VList([])), VList([]));
    if !Truthy(uncertainties) {
      uncertainties := VList(Strs(DefaultUncertainties));
    }
    var rationaleText := RationaleText(rt, result.Get("risk", VDict([])));
    if NonClinical(rationaleText) {
      var present := Member(NonClinicalMessage, uncertainties);
      if present.Failure? {
        return Some(present.error);
      }
      if !present.value {
        var appended := Append(uncertainties, VStr(NonClinicalMessage));
        if appended.Failure? {
          return Some(appended.error);
        }
        uncertainties := appended.value;
      }
    }
    result.Set("uncertainties", uncertainties);
    error := None;
  }

  /** After a run that does not raise, the uncertainties are present and non-empty. */
  lemma UncertaintiesNeverEmpty(rt: Runtime, result: Entries)
    ensures var o := EnforceUncertainty(rt, result);
      o.error.None? ==> Lookup(o.state, "uncertainties").Some? && Truthy(Lookup(o.state, "uncertainties").value)
  {
    var text := RationaleText(rt, GetOr(result, "risk", VDict([])));
    var f := Flagged(Uncertainties(result), NonClinical(text));
    if f.Success? {
      StoreLookup(result, "uncertainties", f.value, "uncertainties");
    }
  }

  /** Missing or empty uncertainties become the three defaults, followed by the message when the narrative is non-clinical. */
  lemma DefaultsWhenEmpty(rt: Runtime, result: Entries)
    requires !Truthy(GetOr(result, "uncertainties", VList([])))
    ensures var text := RationaleText(rt, GetOr(result, "risk", VDict([])));
      && EnforceUncertainty(rt, result).error.None?
      && Lookup(EnforceUncertainty(rt, result).state, "uncertainties") ==
         Some(VList(if NonClinical(text) then Strs(DefaultUncertainties) + [VStr(NonClinicalMessage)]
                    else Strs(DefaultUncertainties)))
  {
    var text := RationaleText(rt, GetOr(result, "risk", VDict([])));
    var ds := Strs(DefaultUncertainties);
    assert VStr(NonClinicalMessage) !in ds;
    var u := if NonClinical(text) then ds + [VStr(NonClinicalMessage)] else ds;
    assert Uncertainties(result) == VList(ds);
    assert Member(NonClinicalMessage, VList(ds)) == Success(false);
    assert Flagged(VList(ds), NonClinical(text)) == Success(VList(u));
    assert EnforceUncertainty(rt, result) == Outcome(Store(result, "uncertainties", VList(u)), None);
    StoreLookup(result, "uncertainties", VList(u), "uncertainties");
  }

  /**
   * On a list of uncertainties the message ends up present exactly when it
   * was there already or the narrative is non-clinical; the list only
   * grows at its end, by at most that one message, never duplicated.
   */
  lemma MessageOnList(rt: Runtime, result: Entries)
    requires Uncertainties(result).VList?
    ensures var o := EnforceUncertainty(rt, result);
      var before := Uncertainties(result).items;
      var text := RationaleText(rt, GetOr(result, "risk", VDict([])));
      && o.error.None?
      && Lookup(o.state, "uncertainties").Some? && Lookup(o.state, "uncertainties").value.VList?
      && var after := Lookup(o.state, "uncertainties").value.items;
      && |before| <= |after| <= |before| + 1
      && after[..|before|] == before
      && (VStr(NonClinicalMessage) in after <==> VStr(NonClinicalMessage) in before || NonClinical(text))
      && (VStr(NonClinicalMessage) in before ==> after == before)
  {
    var text := RationaleText(rt, GetOr(result, "risk", VDict([])));
    var u := Uncertainties(result);
    var f := Flagged(u, NonClinical(text));
    StoreLookup(result, "uncertainties", f.value, "uncertainties");
    if NonClinical(text) && VStr(NonClinicalMessage) !in u.items {
      assert f.value.items[..|u.items|] == u.items;
      assert f.value.items[|u.items|] == VStr(NonClinicalMessage);
    } else {
      assert f.value.items[..|u.items|] == u.items;
    }
  }

  /**
   * The call raises exactly when the narrative is non-clinical and the
   * uncertainties are a truthy non-list that does not already hold the
   * message (TypeError from `in` on a number or True, AttributeError from
   * `append` on a string or dict).
   */
  lemma EnforceErrors(rt: Runtime, result: Entries)
    ensures var u := Uncertainties(result);
      var text := RationaleText(rt, GetOr(result, "risk", VDict([])));
      EnforceUncertainty(rt, result).error.Some? <==>
        NonClinical(text) && !u.VList? && Member(NonClinicalMessage, u) != Success(true)
    ensures var u := Uncertainties(result);
      EnforceUncertainty(rt, result).error.Some? ==>
        EnforceUncertainty(rt, result).error == Some(if u.VStr? || u.VDict? then AttributeError else TypeError)
  {
  }

  /** Only the uncertainties change. */
  lemma EnforceKeepsOthers(rt: Runtime, result: Entries, k: string)
    requires k != "uncertainties"
    ensures Lookup(EnforceUncertainty(rt, result).state, k) == Lookup(result, k)
  {
    var text := RationaleText(rt, GetOr(result, "risk", VDict([])));
    var f := Flagged(Uncertainties(result), NonClinical(text));
    if f.Success? {
      StoreLookup(result, "uncertainties", f.value, k);
    }
  }

  // ---------------------------------------------------------------------
  // `apply_safety_guardrails` (lines 204-215)

  /** Validation, then disclaimers, then uncertainty flagging; an exception stops the chain. */
  function Guard(rt: Runtime, result: Entries): (o: Outcome)
    ensures o.error.Some? ==> o.state == Validated(rt, result) || o.state == AddDisclaimers(Validated(rt, result)).state
  {
    var withNotes := AddDisclaimers(Validated(rt, result));
    if withNotes.error.Some? then withNotes
    else EnforceUncertainty(rt, withNotes.state)
  }

  /** `apply_safety_guardrails(result)`: the three stages on the same dict. */
  method ApplySafetyGuardrails(rt: Runtime, result: Dict) returns (error: Option<Error>)
    modifies result
    ensures result.entries == Guard(rt, old(result.entries)).state
    ensures error == Guard(rt, old(result.entries)).error
  {
    ValidateOutput(rt, result);
    error := AddDisclaimersTo(result);
    if error.None? {
      error := EnforceUncertaintyOn(rt, result);
    }
  }

  /**
   * What the guardrails promise together: violations found in the input
   * are recorded; unless a stage raised, every disclaimer is in the notes
   * and the uncertainties are non-empty.
   */
  lemma GuardPromises(rt: Runtime, result: Entries)
    ensures |Violations(rt, result)| > 0 ==>
      Lookup(Guard(rt, result).state, "safety_violations") == Some(VList(Strs(Violations(rt, result))))
    ensures Guard(rt, result).error.None? ==>
      Has(Guard(rt, result).state, "notes") &&
      forall d | d in RequiredDisclaimers :: Member(d, GetOr(Guard(rt, result).state, "notes", VNone)) == Success(true)
    ensures Guard(rt, result).error.None? ==>
      Has(Guard(rt, result).state, "uncertainties") && Truthy(GetOr(Guard(rt, result).state, "uncertainties", VNone))
  {
    var v := Validated(rt, result);
    var a := AddDisclaimers(v);
    ViolationsRecorded(rt, result);
    AddDisclaimersKeepsOthers(v, "safety_violations");
    AddDisclaimersMeaning(v);
    if a.error.None? {
      EnforceKeepsOthers(rt, a.state, "safety_violations");
      EnforceKeepsOthers(rt, a.state, "notes");
      UncertaintiesNeverEmpty(rt, a.state);
    }
  }

  /** Notes and uncertainties that are lists, or missing, never make a stage raise. */
  lemma GuardRaisesOnlyOnOddTypes(rt: Runtime, result: Entries)
    requires GetOr(result, "notes", VList([])).VList? && Uncertainties(result).VList?
    ensures Guard(rt, result).error.None?
  {
    var v := Validated(rt, result);
    OnlySummaryRewritten(rt, result, "notes");
    OnlySummaryRewritten(rt, result, "uncertainties");
    DisclaimersOnList(v);
    var a := AddDisclaimers(v);
    AddDisclaimersKeepsOthers(v, "uncertainties");
    assert Uncertainties(a.state) == Uncertainties(result);
    MessageOnList(rt, a.state);
  }

  /** Every key the guardrails do not write keeps its value. */
  lemma GuardKeepsOthers(rt: Runtime, result: Entries, k: string)
    requires k !in {"summary", "safety_violations", "notes", "uncertainties"}
    ensures Lookup(Guard(rt, result).state, k) == Lookup(result, k)
  {
    OnlySummaryRewritten(rt, result, k);
    AddDisclaimersKeepsOthers(Validated(rt, result), k);
    var a := AddDisclaimers(Validated(rt, result));
    if a.error.None? {
      EnforceKeepsOthers(rt, a.state, k);
    }
  }
}
