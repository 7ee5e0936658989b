/**
 * The deterministic risk override of the orchestrator: fixed trigger
 * phrases found in the lower-cased narrative force the risk level to high,
 * raise the urgency to at least 0.8, merge red-flag labels and an
 * escalation note, and mark the rationale. The risk dict is normalised and
 * written back in place whether or not a phrase fires.
 */
module RiskOverride {
  import opened Wrappers
  import opened Text
  import opened Py

  /** Phrase to red-flag label, in the order the table is iterated. */
  const Triggers: seq<(string, string)> :=
    [ ("chest pain", "chest pain with possible cardiac or pulmonary aetiology"),
      ("tightness in my chest", "chest tightness"),
      ("pressure in my chest", "chest pressure"),
      ("shortness of breath", "dyspnea / shortness of breath"),
      ("cant breathe", "subjective inability to breathe"),
      ("cannot breathe", "subjective inability to breathe"),
      ("trouble breathing", "respiratory difficulty"),
      ("difficulty breathing", "respiratory difficulty"),
      ("face drooping", "possible facial droop (neurological)"),
      ("slurred speech", "slurred speech (neurological)"),
      ("weakness on one side", "unilateral weakness (neurological)"),
      ("numb on one side", "unilateral sensory change"),
      ("sudden weakness", "sudden focal weakness"),
      ("seizure", "possible seizure activity"),
      ("fit", "possible seizure activity"),
      ("fainted", "loss of consciousness"),
      ("passed out", "loss of consciousness"),
      ("blackout", "loss of consciousness") ]

  const EscalationNote := "Deterministic safety override: high-risk symptom(s) detected in patient narrative."
  const OverrideMarker := "deterministic_override"
  /** "Deterministic_override: high-risk language present; risk not downgraded below HIGH." */
  const RationaleSuffix := "D" + OverrideMarker[1..] + ": high-risk language present; risk not downgraded below HIGH."

  /** The labels of the phrases occurring in `text`, in table order, repeats kept. */
  function Fired(table: seq<(string, string)>, text: string): (r: seq<string>)
    ensures |r| <= |table|
    ensures forall i | 0 <= i < |table| && Contains(text, table[i].0) :: table[i].1 in r
    ensures forall l | l in r :: exists i | 0 <= i < |table| :: Contains(text, table[i].0) && table[i].1 == l
  {
    if |table| == 0 then []
    else
      var init, last := table[..|table| - 1], table[|table| - 1];
      var r := Fired(init, text) + (if Contains(text, last.0) then [last.1] else []);
      assert forall i | 0 <= i < |init| :: init[i] == table[i];
      r
  }

  // ---------------------------------------------------------------------
  // Reading the agent's risk dict

  /** The risk dict as the override reads it: `str(level).lower()`, `list(flags or [])`, `rationale or ""`, `float(urgency or 0.0)`. */
  datatype Reading = Reading(level: string, flags: seq<Value>, rationale: Value, urgency: real)

  function InputLevel(rt: Runtime, risk: Entries): (r: string)
    ensures NoUpper(r)
  {
    LowerIsLower(Str(rt, GetOr(risk, "risk_level", VStr("low"))));
    Lower(Str(rt, GetOr(risk, "risk_level", VStr("low"))))
  }

  function InputFlags(risk: Entries): (r: Result<seq<Value>, Error>)
    ensures r.Failure? ==> r.error == TypeError
    ensures GetOr(risk, "red_flags", VList([])).VList? ==> r == Success(GetOr(risk, "red_flags", VList([])).items)
  {
    ToList(Or(GetOr(risk, "red_flags", VList([])), VList([])))
  }

  function InputRationale(risk: Entries): (r: Value)
    ensures r.VStr? || Truthy(r)
    ensures GetOr(risk, "rationale", VStr("")).VStr? ==> r.VStr? && r.s == GetOr(risk, "rationale", VStr("")).s
  {
    Or(GetOr(risk, "rationale", VStr("")), VStr(""))
  }

  function InputUrgency(rt: Runtime, risk: Entries): (r: Result<real, Error>)
    ensures GetOr(risk, "urgency_score", VNum(0.0)).VNum? ==> r == Success(GetOr(risk, "urgency_score", VNum(0.0)).n)
  {
    ToFloat(rt, Or(GetOr(risk, "urgency_score", VNum(0.0)), VNum(0.0)))
  }

  /** Lines 46-50: the reads, in order; `list()` is applied before `float()`. */
  function Read(rt: Runtime, risk: Entries): (r: Result<Reading, Error>)
    ensures r.Success? <==> InputFlags(risk).Success? && InputUrgency(rt, risk).Success?
    ensures InputFlags(risk).Failure? ==> r == Failure(InputFlags(risk).error)
    ensures r.Success? ==> NoUpper(r.value.level)
  {
    var flags :- InputFlags(risk);
    var urgency :- InputUrgency(rt, risk);
    Success(Reading(InputLevel(rt, risk), flags, InputRationale(risk), urgency))
  }

  // ---------------------------------------------------------------------
  // Escalation

  /** Adds `x` unless it is already in the list. */
  function AppendNew(flags: seq<Value>, x: Value): (r: seq<Value>)
    ensures x in r
    ensures x in flags ==> r == flags
    ensures x !in flags ==> r == flags + [x]
  {
    if x in flags then flags else flags + [x]
  }

  /** The rationale after line 95-96: the suffix, after a space when non-empty, unless the marker is present. */
  function Marked(s: string): (r: string)
    ensures Contains(Lower(s), OverrideMarker) ==> r == s
  {
    if Contains(Lower(s), OverrideMarker) then s
    else (if |s| > 0 then s + " " else "") + RationaleSuffix
  }

  /**
   * Lines 79-96 on the values read: nothing when no label fired; otherwise
   * the escalated reading, or AttributeError from `rationale.lower()` on a
   * rationale that is not a string.
   */
  function Escalate(r: Reading, fired: seq<string>): (e: Result<Reading, Error>)
    ensures |fired| == 0 ==> e == Success(r)
    ensures |fired| > 0 ==> (e.Success? <==> r.rationale.VStr?)
    ensures e.Failure? ==> e.error == AttributeError
  {
    if |fired| == 0 then Success(r)
    else if !r.rationale.VStr? then Failure(AttributeError)
    else
      var level := if Contains(r.level, "high") then r.level else "high";
      var urgency := if r.urgency >= 0.8 then r.urgency else 0.8;
      var flags := AppendNew(Merge(r.flags, fired), VStr(EscalationNote));
      Success(Reading(level, flags, VStr(Marked(r.rationale.s)), urgency))
  }

  // ---------------------------------------------------------------------
  // The whole override

  /** Lines 98-101: three writes, then `rationale.strip()`, which raises on a non-string after them. */
  function WriteBack(risk: Entries, r: Reading): (o: Outcome)
    ensures o.error.None? <==> r.rationale.VStr?
  {
    var d := Store(Store(Store(risk, "risk_level", VStr(r.level)), "urgency_score", VNum(r.urgency)),
                   "red_flags", VList(r.flags));
    if r.rationale.VStr? then Outcome(Store(d, "rationale", VStr(Strip(r.rationale.s))), None)
    else Outcome(d, Some(AttributeError))
  }

  /** The labels that fire for a narrative: `(patient_text or "").lower()` is searched for each phrase. */
  function FiredFor(patientText: string): seq<string> {
    Fired(Triggers, Lower(patientText))
  }

  /**
   * `_apply_deterministic_risk_overrides(patient_text, risk_result)` as a
   * function of the dict's entries, once the labels that fired are known.
   */
  function Override(rt: Runtime, fired: seq<string>, risk: Entries): (o: Outcome)
    ensures Read(rt, risk).Failure? ==> o == Outcome(risk, Some(Read(rt, risk).error))
  {
    match Read(rt, risk)
    case Failure(err) => Outcome(risk, Some(err))
    case Success(r) =>
      match Escalate(r, fired)
      case Failure(err) => Outcome(risk, Some(err))
      case Success(e) => WriteBack(risk, e)
  }

  /** Some label fires exactly when some phrase occurs in the lower-cased narrative. */
  lemma FiresIffPhrase(patientText: string)
    ensures |FiredFor(patientText)| > 0 <==>
      exists i | 0 <= i < |Triggers| :: Contains(Lower(patientText), Triggers[i].0)
  {
    var r := FiredFor(patientText);
    if |r| > 0 {
      assert r[0] in r;
    }
  }

  /** The four keys the override writes back. */
  predicate Written(k: string) {
    k == "risk_level" || k == "urgency_score" || k == "red_flags" || k == "rationale"
  }

  /** `d[k]` after the write-back: the reading's field for a written key, the old value otherwise. */
  lemma WriteBackLookup(risk: Entries, r: Reading, k: string)
    ensures Lookup(WriteBack(risk, r).state, k) ==
      if k == "rationale" && r.rationale.VStr? then Some(VStr(Strip(r.rationale.s)))
      else if k == "rationale" then Lookup(risk, k)
      else if k == "red_flags" then Some(VList(r.flags))
      else if k == "urgency_score" then Some(VNum(r.urgency))
      else if k == "risk_level" then Some(VStr(r.level))
      else Lookup(risk, k)
  {
    var d1 := Store(risk, "risk_level", VStr(r.level));
    var d2 := Store(d1, "urgency_score", VNum(r.urgency));
    var d3 := Store(d2, "red_flags", VList(r.flags));
    StoreLookup(risk, "risk_level", VStr(r.level), k);
    StoreLookup(d1, "urgency_score", VNum(r.urgency), k);
    StoreLookup(d2, "red_flags", VList(r.flags), k);
    if r.rationale.VStr? {
      StoreLookup(d3, "rationale", VStr(Strip(r.rationale.s)), k);
    }
  }

  /** The value the dict holds for `k` after the call, None when absent. */
  function Out(o: Outcome, k: string): Value {
    GetOr(o.state, k, VNone)
  }

  /** A successful override stores the escalated reading in the four written keys and keeps every other key. */
  lemma OverrideFields(rt: Runtime, fired: seq<string>, risk: Entries, k: string)
    requires Override(rt, fired, risk).error.None?
    ensures Read(rt, risk).Success? && InputRationale(risk).VStr?
    ensures Escalate(Read(rt, risk).value, fired).Success?
    ensures var e := Escalate(Read(rt, risk).value, fired).value;
      var o := Override(rt, fired, risk);
      && e.rationale.VStr?
      && Out(o, "risk_level") == VStr(e.level)
      && Out(o, "urgency_score") == VNum(e.urgency)
      && Out(o, "red_flags") == VList(e.flags)
      && Out(o, "rationale") == VStr(Strip(e.rationale.s))
      && (!Written(k) ==> Lookup(o.state, k) == Lookup(risk, k))
  {
    var e := Escalate(Read(rt, risk).value, fired).value;
    WriteBackLookup(risk, e, "risk_level");
    WriteBackLookup(risk, e, "urgency_score");
    WriteBackLookup(risk, e, "red_flags");
    WriteBackLookup(risk, e, "rationale");
    WriteBackLookup(risk, e, k);
  }

  // ---------------------------------------------------------------------
  // Properties of the escalation

  /** A fired label makes the level contain "high": exactly "high", unless the lower-cased level already contained it. */
  lemma EscalatesToHigh(r: Reading, fired: seq<string>)
    requires |fired| > 0 && Escalate(r, fired).Success?
    ensures Contains(Escalate(r, fired).value.level, "high")
    ensures !Contains(r.level, "high") ==> Escalate(r, fired).value.level == "high"
  {
    ContainsSelf("high");
  }

  /** The risk is never downgraded: a level containing "high" is kept as read. */
  lemma NeverDowngrades(r: Reading, fired: seq<string>)
    requires Escalate(r, fired).Success? && Contains(r.level, "high")
    ensures Escalate(r, fired).value.level == r.level
  {
  }

  /** The urgency never decreases, and reaches 0.8 when a label fired. */
  lemma UrgencyRaised(r: Reading, fired: seq<string>)
    requires Escalate(r, fired).Success?
    ensures Escalate(r, fired).value.urgency >= r.urgency
    ensures |fired| > 0 ==> Escalate(r, fired).value.urgency >= 0.8
    ensures |fired| == 0 ==> Escalate(r, fired).value.urgency == r.urgency
  {
  }

  /** Adding `x` after a merge keeps what the merge promises, with `x` as the only other possible addition. */
  lemma {:induction false} MergeThenAdd(flags: seq<Value>, labels: seq<string>, x: Value)
    ensures var f := AppendNew(Merge(flags, labels), x);
      |f| >= |flags| && f[..|flags|] == flags
    ensures forall l | l in labels :: VStr(l) in AppendNew(Merge(flags, labels), x)
    ensures var f := AppendNew(Merge(flags, labels), x);
      forall i | |flags| <= i < |f| :: f[i] !in flags
    ensures var f := AppendNew(Merge(flags, labels), x);
      forall i, j | |flags| <= i < j < |f| :: f[i] != f[j]
    ensures var f := AppendNew(Merge(flags, labels), x);
      forall i | |flags| <= i < |f| :: f[i] == x || (f[i].VStr? && f[i].s in labels)
  {
    var m := Merge(flags, labels);
    if x !in m {
      var f := m + [x];
      assert f[..|m|] == m;
      assert f[..|flags|] == m[..|flags|];
      assert x !in flags by {
        assert forall y | y in flags :: y in m[..|flags|];
      }
      forall i | |flags| <= i < |f| ensures f[i] == x || (f[i] !in flags && f[i].VStr? && f[i].s in labels) {
        if i < |m| {
          assert f[i] == m[i];
        }
      }
    }
  }

  /**
   * The flags read are a prefix of the result; every fired label and the
   * escalation note are present; what is added is new, added once, and either a fired label or the note.
   */
  lemma FlagsMerged(r: Reading, fired: seq<string>)
    requires |fired| > 0 && Escalate(r, fired).Success?
    ensures var f0, f := r.flags, Escalate(r, fired).value.flags;
      && |f| >= |f0| && f[..|f0|] == f0
      && (forall l | l in fired :: VStr(l) in f)
      && VStr(EscalationNote) in f
      && (forall i | |f0| <= i < |f| :: f[i] !in f0)
      && (forall i, j | |f0| <= i < j < |f| :: f[i] != f[j])
      && (forall i | |f0| <= i < |f| :: f[i] == VStr(EscalationNote) || (f[i].VStr? && f[i].s in fired))
  {
    var note := VStr(EscalationNote);
    var f0, f := r.flags, Escalate(r, fired).value.flags;
    assert f == AppendNew(Merge(f0, fired), note);
    MergeThenAdd(f0, fired, note);
  }

  /** When the note was not among the flags read, it occurs exactly once afterwards. */
  lemma NoteOnce(r: Reading, fired: seq<string>)
    requires |fired| > 0 && Escalate(r, fired).Success?
    requires VStr(EscalationNote) !in r.flags
    ensures var f := Escalate(r, fired).value.flags;
      forall i, j | 0 <= i < j < |f| && f[i] == VStr(EscalationNote) :: f[j] != VStr(EscalationNote)
  {
    FlagsMerged(r, fired);
    var f0, f := r.flags, Escalate(r, fired).value.flags;
    forall i | 0 <= i < |f0| ensures f[i] != VStr(EscalationNote) {
      assert f[i] == f0[i];
    }
  }

  lemma SuffixHasMarker()
    ensures MatchAt(Lower(RationaleSuffix), OverrideMarker, 0)
  {
    var l := Lower(RationaleSuffix);
    assert l[0] == 'd';
    forall m | 1 <= m < |OverrideMarker| ensures l[m] == OverrideMarker[m] {
      assert RationaleSuffix[m] == OverrideMarker[m];
      assert !IsUpperChar(OverrideMarker[m]);
    }
    assert l[..|OverrideMarker|] == OverrideMarker;
  }

  /** Marking a rationale always leaves the marker in it, and survives stripping. */
  lemma {:induction false} MarkedHasMarker(s: string)
    ensures Contains(Lower(Marked(s)), OverrideMarker)
    ensures Contains(Lower(Strip(Marked(s))), OverrideMarker)
  {
    if !Contains(Lower(s), OverrideMarker) {
      var p := if |s| > 0 then s + " " else "";
      SuffixHasMarker();
      LowerConcat(p, RationaleSuffix);
      ContainsConcatRight(Lower(p), Lower(RationaleSuffix), OverrideMarker);
    }
    StripKeepsWord(Marked(s), OverrideMarker);
  }

  /**
   * After a fired label the rationale carries the marker, even once
   * stripped; the suffix is added only when the marker was absent.
   */
  lemma RationaleMarked(r: Reading, fired: seq<string>)
    requires |fired| > 0 && Escalate(r, fired).Success?
    ensures r.rationale.VStr? && Escalate(r, fired).value.rationale.VStr?
    ensures Contains(Lower(Strip(Escalate(r, fired).value.rationale.s)), OverrideMarker)
    ensures Contains(Lower(r.rationale.s), OverrideMarker) ==> Escalate(r, fired).value.rationale == r.rationale
  {
    MarkedHasMarker(r.rationale.s);
  }

  // ---------------------------------------------------------------------
  // Properties of the whole call

  /** With no label fired the call only normalises: lower-cased level, float urgency, list flags, stripped rationale. */
  lemma NoTriggerNormalises(rt: Runtime, risk: Entries, k: string)
    requires Override(rt, [], risk).error.None?
    ensures var o := Override(rt, [], risk);
      && Out(o, "risk_level") == VStr(InputLevel(rt, risk))
      && Out(o, "urgency_score") == VNum(InputUrgency(rt, risk).value)
      && Out(o, "red_flags") == VList(InputFlags(risk).value)
      && Out(o, "rationale") == VStr(Strip(InputRationale(risk).s))
      && (!Written(k) ==> Lookup(o.state, k) == Lookup(risk, k))
  {
    OverrideFields(rt, [], risk, k);
  }

  /** The escalated reading, with its rationale stripped, is left as it is by a second escalation. */
  lemma EscalateSettled(r: Reading, fired: seq<string>)
    requires Escalate(r, fired).Success? && Escalate(r, fired).value.rationale.VStr?
    ensures var e := Escalate(r, fired).value;
      var e' := Reading(e.level, e.flags, VStr(Strip(e.rationale.s)), e.urgency);
      Escalate(e', fired) == Success(e')
  {
    var e := Escalate(r, fired).value;
    var e' := Reading(e.level, e.flags, VStr(Strip(e.rationale.s)), e.urgency);
    if |fired| > 0 {
      FlagsMerged(r, fired);
      MergePresent(e.flags, fired);
      RationaleMarked(r, fired);
      EscalatesToHigh(r, fired);
    }
  }

  /** Escalation keeps the level free of upper-case letters. */
  lemma LevelStaysLower(r: Reading, fired: seq<string>)
    requires NoUpper(r.level) && Escalate(r, fired).Success?
    ensures NoUpper(Escalate(r, fired).value.level)
  {
    if |fired| > 0 && !Contains(r.level, "high") {
      assert Escalate(r, fired).value.level == "high";
    }
  }

  /** Reading a dict back: the values it holds, once the level has no upper-case letter and the flags are a list. */
  lemma ReadOf(rt: Runtime, d: Entries, e: Reading)
    requires NoUpper(e.level) && e.rationale.VStr?
    requires Lookup(d, "risk_level") == Some(VStr(e.level))
    requires Lookup(d, "urgency_score") == Some(VNum(e.urgency))
    requires Lookup(d, "red_flags") == Some(VList(e.flags))
    requires Lookup(d, "rationale") == Some(e.rationale)
    ensures Read(rt, d) == Success(e)
  {
    LowerOfLower(e.level);
  }

  /** Reading back what the override wrote gives the escalated reading with its rationale stripped. */
  lemma ReadBack(rt: Runtime, fired: seq<string>, risk: Entries)
    requires Override(rt, fired, risk).error.None?
    ensures Escalate(Read(rt, risk).value, fired).Success?
    ensures var e := Escalate(Read(rt, risk).value, fired).value;
      e.rationale.VStr? &&
      Read(rt, Override(rt, fired, risk).state) ==
        Success(Reading(e.level, e.flags, VStr(Strip(e.rationale.s)), e.urgency))
  {
    OverrideFields(rt, fired, risk, "");
    var r := Read(rt, risk).value;
    var e := Escalate(r, fired).value;
    LevelStaysLower(r, fired);
    ReadOf(rt, Override(rt, fired, risk).state, Reading(e.level, e.flags, VStr(Strip(e.rationale.s)), e.urgency));
  }

  /** Applying the override to its own result changes nothing: the rule is idempotent. */
  lemma Idempotent(rt: Runtime, fired: seq<string>, risk: Entries)
    requires Override(rt, fired, risk).error.None?
    ensures Override(rt, fired, Override(rt, fired, risk).state) == Override(rt, fired, risk)
  {
    var s1 := Override(rt, fired, risk).state;
    var e := Escalate(Read(rt, risk).value, fired).value;
    var e' := Reading(e.level, e.flags, VStr(Strip(e.rationale.s)), e.urgency);
    ReadBack(rt, fired, risk);
    EscalateSettled(Read(rt, risk).value, fired);
    OverrideFields(rt, fired, risk, "");
    StripIdempotent(e.rationale.s);
    RewriteSame(s1, e');
  }

  /** Writing back the values a dict already holds leaves it as it is. */
  lemma RewriteSame(d: Entries, e: Reading)
    requires e.rationale.VStr?
    requires Lookup(d, "risk_level") == Some(VStr(e.level))
    requires Lookup(d, "urgency_score") == Some(VNum(e.urgency))
    requires Lookup(d, "red_flags") == Some(VList(e.flags))
    requires Lookup(d, "rationale") == Some(VStr(Strip(e.rationale.s)))
    ensures WriteBack(d, e) == Outcome(d, None)
  {
    StoreSame(d, "risk_level", VStr(e.level));
    StoreSame(d, "urgency_score", VNum(e.urgency));
    StoreSame(d, "red_flags", VList(e.flags));
    StoreSame(d, "rationale", VStr(Strip(e.rationale.s)));
  }

  /** "fit" is matched as a raw substring, so "benefit" reads as a seizure. */
  lemma FitFiresInBenefit()
    ensures "possible seizure activity" in FiredFor("The Benefit was clear")
  {
    var text := Lower("The Benefit was clear");
    assert text[4..11] == "benefit";
    assert MatchAt(text, "fit", 8);
    assert Triggers[14] == ("fit", "possible seizure activity");
  }

  /**
   * Where the call raises: a failed read leaves the dict as it was; a
   * rationale that is not a string raises AttributeError, before any write
   * when a label fired (`rationale.lower()`), after the three other writes
   * when none did (`rationale.strip()`).
   */
  lemma OverrideErrors(rt: Runtime, fired: seq<string>, risk: Entries)
    ensures var o := Override(rt, fired, risk);
      o.error.None? <==> Read(rt, risk).Success? && InputRationale(risk).VStr?
    ensures var o := Override(rt, fired, risk);
      Read(rt, risk).Success? && !InputRationale(risk).VStr? && |fired| > 0 ==>
        o == Outcome(risk, Some(AttributeError))
    ensures var o := Override(rt, fired, risk);
      Read(rt, risk).Success? && !InputRationale(risk).VStr? && |fired| == 0 ==>
        && o.error == Some(AttributeError)
        && Lookup(o.state, "risk_level") == Some(VStr(InputLevel(rt, risk)))
        && Lookup(o.state, "urgency_score") == Some(VNum(InputUrgency(rt, risk).value))
        && Lookup(o.state, "red_flags") == Some(VList(InputFlags(risk).value))
        && Lookup(o.state, "rationale") == Lookup(risk, "rationale")
  {
    if Read(rt, risk).Success? && |fired| == 0 {
      var r := Read(rt, risk).value;
      WriteBackLookup(risk, r, "risk_level");
      WriteBackLookup(risk, r, "urgency_score");
      WriteBackLookup(risk, r, "red_flags");
      WriteBackLookup(risk, r, "rationale");
    }
  }

  // ---------------------------------------------------------------------
  // The override as the program runs it, on the dict it mutates

  /** Lines 74-77: the labels whose phrase occurs in `text`, in table order. */
  method ScanTriggers(table: seq<(string, string)>, text: string) returns (triggered: seq<string>)
    ensures triggered == Fired(table, text)
  {
    triggered := [];
    var i := 0;
    while i < |table|
      invariant 0 <= i <= |table|
      invariant triggered == Fired(table[..i], text)
    {
      assert table[..i + 1][..i] == table[..i];
      if Contains(text, table[i].0) {
        triggered := triggered + [table[i].1];
      }
      i := i + 1;
    }
    assert table[..i] == table;
  }

  /** Lines 87-89: appends each label not yet among the flags. */
  method MergeFlags(flags: seq<Value>, labels: seq<string>) returns (merged: seq<Value>)
    ensures merged == Merge(flags, labels)
  {
    merged := flags;
    var j := 0;
    while j < |labels|
      invariant 0 <= j <= |labels|
      invariant merged == Merge(flags, labels[..j])
    {
      assert labels[..j + 1][..j] == labels[..j];
      if VStr(labels[j]) !in merged {
        merged := merged + [VStr(labels[j])];
      }
      j := j + 1;
    }
    assert labels[..j] == labels;
  }

  /** Lines 98-101: the three writes, then the stripped rationale, which raises on a non-string. */
  method WriteInto(risk: Dict, level: string, urgency: real, flags: seq<Value>, rationale: Value)
    returns (error: Option<Error>)
    modifies risk
    ensures var o := WriteBack(old(risk.entries), Reading(level, flags, rationale, urgency));
      risk.entries == o.state && error == o.error
  {
    risk.Set("risk_level", VStr(level));
    risk.Set("urgency_score", VNum(urgency));
    risk.Set("red_flags", VList(flags));
    if !rationale.VStr? {
      return Some(AttributeError);
    }
    risk.Set("rationale", VStr(Strip(rationale.s)));
    error := None;
  }

  /**
   * `_apply_deterministic_risk_overrides` (lines 34-103): scans the trigger
   * table, then escalates and writes the four keys of `risk` in place; the
   * exception raised, if any, is returned.
   */
  method ApplyOverride(rt: Runtime, patientText: string, risk: Dict) returns (error: Option<Error>)
    modifies risk
    ensures risk.entries == Override(rt, FiredFor(patientText), old(risk.entries)).state
    ensures error == Override(rt, FiredFor(patientText), old(risk.entries)).error
  {
    var triggered := ScanTriggers(Triggers, Lower(patientText));
    error := Escalated(rt, triggered, risk);
  }

  /** Lines 46-50 and 79-101: the reads, the escalation by the labels that fired, and the writes. */
  method Escalated(rt: Runtime, triggered: seq<string>, risk: Dict) returns (error: Option<Error>)
    modifies risk
    ensures risk.entries == Override(rt, triggered, old(risk.entries)).state
    ensures error == Override(rt, triggered, old(risk.entries)).error
  {
    ghost var risk0 := risk.entries;
    var level := InputLevel(rt, risk.entries);
    var readFlags := InputFlags(risk.entries);
    if readFlags.Failure? {
      return Some(readFlags.error);
    }
    var redFlags := readFlags.value;
    var rationale := InputRationale(risk.entries);
    var readUrgency := InputUrgency(rt, risk.entries);
    if readUrgency.Failure? {
      return Some(readUrgency.error);
    }
    var urgency := readUrgency.value;
    ghost var r := Reading(level, redFlags, rationale, urgency);
    assert Read(rt, risk0) == Success(r);

    if |triggered| > 0 {
      if !Contains(level, "high") {
        level := "high";
      }
      if urgency < 0.8 {
        urgency := 0.8;
      }
      redFlags := MergeFlags(redFlags, triggered);
      if VStr(EscalationNote) !in redFlags {
        redFlags := redFlags + [VStr(EscalationNote)];
      }
      assert redFlags == AppendNew(Merge(r.flags, triggered), VStr(EscalationNote));
      if !rationale.VStr? {
        return Some(AttributeError);
      }
      if !Contains(Lower(rationale.s), OverrideMarker) {
        rationale := VStr((if |rationale.s| > 0 then rationale.s + " " else "") + RationaleSuffix);
      }
      assert rationale == VStr(Marked(r.rationale.s));
    }
    assert Escalate(r, triggered) == Success(Reading(level, redFlags, rationale, urgency));
    error := WriteInto(risk, level, urgency, redFlags, rationale);
  }
}
