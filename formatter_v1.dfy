/**
 * The first clinician formatter (formatter/clinical_formatter.py): a shorter
 * emotion list with a fixed label table, a metaphor line, a one-line risk
 * label, the summary cleaned with eight labels, and fixed uncertainties and
 * notes. It indexes the result with `[...]`, so missing keys raise.
 */
module LegacyFormatter {
  import opened Wrappers
  import opened Text
  import opened Py
  import opened Rewrite
  import ClinicalFormatter

  const NoDistressLine := "- No" + " clinically significant emotional distress identified"
  const ChestLine := "- " + "Subjective chest heaviness described (non-specific symptom expression)"
  const FixedUncertainties := ["Symptom onset not clearly specified", "Severity and progression unclear"]
  const FixedNotes := ["Correlate with vital signs and clinical examination", "Interpret in full clinical context"]

  // ---------------------------------------------------------------------
  // emotion_to_clinical (lines 3-28)

  /**
   * `mapping.get(e["emotion"], "emotional distress")`: four emotions have a
   * clinical label; a list or dict is unhashable and raises TypeError.
   */
  function EmotionLabel(emotion: Value): (r: Result<string, Error>)
    ensures emotion.VList? || emotion.VDict? <==> r == Failure(TypeError)
  {
    match emotion
    case VList(_) => Failure(TypeError)
    case VDict(_) => Failure(TypeError)
    case VStr(s) =>
      Success(if s == "fear" then "anxiety-related distress"
        else if s == "sadness" then "low mood"
        else if s == "anger" then "irritability"
        else if s == "joy" then "positive affect"
        else "emotional distress")
    case _ => Success("emotional distress")
  }

  /** The word for an intensity that is shown. */
  function Level(intensity: real): string {
    if intensity >= 0.7 then "Marked" else "Moderate"
  }

  /** `f"- {level} {label}"`. */
  function Line(level: string, term: string): string {
    "- " + level + " " + term
  }

  /** A line opens with the dash and then the level's first letter. */
  lemma LineOpens(level: string, term: string)
    requires |level| > 0
    ensures |Line(level, term)| > 2 && Line(level, term)[2] == level[0]
  {
    assert Line(level, term) == "- " + (level + " " + term);
  }

  /**
   * One pass of the loop: a non-dict entry or a non-number intensity raises;
   * below 0.4 nothing is added; otherwise the entry must have "emotion".
   */
  function EmotionLine(e: Value): (r: Result<seq<string>, Error>)
    ensures r.Success? ==> |r.value| <= 1
  {
    if !e.VDict? then Failure(AttributeError)
    else
      var intensity := GetOr(e.entries, "intensity", VNum(0.0));
      var marked :- AtLeast(intensity, 0.7);
      var moderate :- if marked then Success(true) else AtLeast(intensity, 0.4);
      if !moderate then Success([])
      else
        var emotion := Lookup(e.entries, "emotion");
        if emotion.None? then Failure(KeyError)
        else
          var term :- EmotionLabel(emotion.value);
          Success([Line(if marked then "Marked" else "Moderate", term)])
  }

  /** The lines the loop collects over `items`, or the first exception. */
  function EmotionLines(items: seq<Value>): (r: Result<seq<string>, Error>)
    ensures r.Success? ==> |r.value| <= |items|
  {
    if |items| == 0 then Success([])
    else
      var init :- EmotionLines(items[..|items| - 1]);
      var line :- EmotionLine(items[|items| - 1]);
      Success(init + line)
  }

  /** `emotion_to_clinical(emotions)`. */
  function EmotionClinical(emotions: Value): (r: Result<seq<string>, Error>)
    ensures !Truthy(emotions) ==> r == Success([NoDistressLine])
    ensures r.Success? ==> |r.value| > 0
  {
    if !Truthy(emotions) then Success([NoDistressLine])
    else
      var items :- ToList(emotions);
      var lines :- EmotionLines(items);
      Success(if |lines| == 0 then [NoDistressLine] else lines)
  }

  /** Once the loop has raised, later entries change nothing. */
  lemma {:induction false} FailureSticks(items: seq<Value>, i: int)
    requires 0 <= i <= |items| && EmotionLines(items[..i]).Failure?
    ensures EmotionLines(items) == EmotionLines(items[..i])
    decreases |items| - i
  {
    if i < |items| {
      assert items[..i + 1][..i] == items[..i];
      FailureSticks(items, i + 1);
    } else {
      assert items[..i] == items;
    }
  }

  /** One more entry: the lines so far, followed by that entry's line. */
  lemma LinesStep(items: seq<Value>, i: int)
    requires 0 <= i < |items| && EmotionLines(items[..i]).Success?
    ensures EmotionLine(items[i]).Failure? ==> EmotionLines(items[..i + 1]) == Failure(EmotionLine(items[i]).error)
    ensures EmotionLine(items[i]).Success? ==>
      EmotionLines(items[..i + 1]) == Success(EmotionLines(items[..i]).value + EmotionLine(items[i]).value)
  {
    assert items[..i + 1][..i] == items[..i];
  }

  /** One pass of the loop body (lines 9-26) on entry `e`: its line, if any, or the exception. */
  method EntryLine(e: Value) returns (r: Result<seq<string>, Error>)
    ensures r == EmotionLine(e)
  {
    if !e.VDict? {
      return Failure(AttributeError);
    }
    var intensity := GetOr(e.entries, "intensity", VNum(0.0));
    var marked := AtLeast(intensity, 0.7);
    if marked.Failure? {
      return Failure(marked.error);
    }
    var level: string;
    if marked.value {
      level := "Marked";
    } else {
      var moderate := AtLeast(intensity, 0.4);
      if moderate.Failure? {
        return Failure(moderate.error);
      }
      if !moderate.value {
        return Success([]);
      }
      level := "Moderate";
    }
    var emotion := Lookup(e.entries, "emotion");
    if emotion.None? {
      return Failure(KeyError);
    }
    var term := EmotionLabel(emotion.value);
    if term.Failure? {
      return Failure(term.error);
    }
    r := Success([Line(level, term.value)]);
  }

  /** `emotion_to_clinical`, appending to `out` entry by entry. */
  method EmotionToClinical(emotions: Value) returns (r: Result<seq<string>, Error>)
    ensures r == EmotionClinical(emotions)
  {
    if !Truthy(emotions) {
      return Success([NoDistressLine]);
    }
    var list := ToList(emotions);
    if list.Failure? {
      return Failure(list.error);
    }
    var items := list.value;
    var out: seq<string> := [];
    var i := 0;
    while i < |items|
      invariant 0 <= i <= |items|
      invariant EmotionLines(items[..i]) == Success(out)
    {
      LinesStep(items, i);
      var line := EntryLine(items[i]);
      if line.Failure? {
        FailureSticks(items, i + 1);
        return Failure(line.error);
      }
      out := out + line.value;
      i := i + 1;
    }
    assert items[..|items|] == items;
    if |out| == 0 {
      out := [NoDistressLine];
    }
    r := Success(out);
  }

  /** A dict entry with a number or boolean intensity (given or defaulted) and a string emotion. */
  predicate WellFormed(e: Value) {
    && e.VDict?
    && (var x := GetOr(e.entries, "intensity", VNum(0.0)); x.VNum? || x.VBool?)
    && Lookup(e.entries, "emotion").Some? && Lookup(e.entries, "emotion").value.VStr?
  }

  function Intensity(e: Value): real {
    if e.VDict? then
      match GetOr(e.entries, "intensity", VNum(0.0))
      case VNum(n) => n
      case VBool(b) => if b then 1.0 else 0.0
      case _ => 0.0
    else 0.0
  }

  /** The entries that reach 0.4, in order. */
  function Shown(items: seq<Value>): (r: seq<Value>)
    ensures |r| <= |items|
  {
    if |items| == 0 then []
    else
      var last := items[|items| - 1];
      Shown(items[..|items| - 1]) + if Intensity(last) >= 0.4 then [last] else []
  }

  /** The display line of a shown, well-formed entry. */
  function ShownLine(e: Value): string
    requires WellFormed(e)
  {
    Line(Level(Intensity(e)), EmotionLabel(Lookup(e.entries, "emotion").value).value)
  }

  /**
   * Over well-formed entries the loop never raises and gives one line per
   * entry of intensity at least 0.4, in order, "Marked" from 0.7 up and
   * "Moderate" below.
   */
  lemma {:induction false} LinesShown(items: seq<Value>)
    requires forall i | 0 <= i < |items| :: WellFormed(items[i])
    ensures EmotionLines(items).Success?
    ensures |EmotionLines(items).value| == |Shown(items)|
    ensures forall i | 0 <= i < |Shown(items)| ::
      WellFormed(Shown(items)[i]) && EmotionLines(items).value[i] == ShownLine(Shown(items)[i])
  {
    if |items| > 0 {
      var init := items[..|items| - 1];
      assert forall i | 0 <= i < |init| :: WellFormed(init[i]) by {
        forall i | 0 <= i < |init| ensures WellFormed(init[i]) {
          assert init[i] == items[i];
        }
      }
      LinesShown(init);
      LineOfWellFormed(items[|items| - 1]);
    }
  }

  /** A well-formed entry never raises: one line from 0.4 up, none below. */
  lemma LineOfWellFormed(e: Value)
    requires WellFormed(e)
    ensures EmotionLine(e) == Success(if Intensity(e) >= 0.4 then [ShownLine(e)] else [])
  {
  }

  /** With well-formed entries, the default line comes back exactly when no entry reaches 0.4. */
  lemma DefaultIffNoneShown(items: seq<Value>)
    requires forall i | 0 <= i < |items| :: WellFormed(items[i])
    ensures EmotionClinical(VList(items)).Success?
    ensures EmotionClinical(VList(items)) == Success([NoDistressLine]) <==> |Shown(items)| == 0
  {
    LinesShown(items);
    if |Shown(items)| > 0 {
      var line := EmotionLines(items).value[0];
      var e := Shown(items)[0];
      assert line == ShownLine(e);
      LineOpens(Level(Intensity(e)), EmotionLabel(Lookup(e.entries, "emotion").value).value);
      assert NoDistressLine[2] == 'N';
    }
  }

  /** The four mapped emotions get their clinical label; any other string falls back to "emotional distress". */
  lemma LabelTable(s: string)
    ensures s !in {"fear", "sadness", "anger", "joy"} ==> EmotionLabel(VStr(s)) == Success("emotional distress")
    ensures EmotionLabel(VStr("fear")) == Success("anxiety-related distress")
    ensures EmotionLabel(VStr("sadness")) == Success("low mood")
    ensures EmotionLabel(VStr("anger")) == Success("irritability")
    ensures EmotionLabel(VStr("joy")) == Success("positive affect")
  {
  }

  // ---------------------------------------------------------------------
  // clean_summary (lines 61-98)

  /** The characters of `[•·\.]`. */
  const Bullets: set<char> := {'•', '·', '.'}

  /** Lines 69-78: the structural labels, removed in this order. */
  const Labels: seq<string> := [
    "Associated Emotional State", "Clinical Impression", "Uncertainties", "Information Gaps", "Context",
    "Emotional signals", "Risk assessment", "Associated E"]

  lemma LabelsNonEmpty()
    ensures forall i | 0 <= i < |Labels| :: |Labels[i]| > 0
  {
  }

  /**
   * `clean_summary(text)`: falsy input gives "", a truthy non-string makes
   * `re.sub` raise TypeError; no leading-heading step in this version.
   */
  function Cleaned(text: Value): (r: Result<string, Error>)
    ensures !Truthy(text) ==> r == Success("")
    ensures Truthy(text) && !text.VStr? ==> r == Failure(TypeError)
  {
    if !Truthy(text) then Success("")
    else if !text.VStr? then Failure(TypeError)
    else Success(CleanedText(text.s))
  }

  /** The cleaning steps on a non-empty string. */
  function CleanedText(s: string): (r: string)
    ensures |r| > 0 ==> !IsSpace(r[0]) && !IsSpace(r[|r| - 1])
  {
    LabelsNonEmpty();
    ClinicalFormatter.ToneNonEmpty();
    Strip(CollapseSpaces(ReplaceAll(RemoveAll(CollapseRuns(s, Bullets), Labels), ClinicalFormatter.Tone)))
  }

  /** `clean_summary`, rewriting the text step by step. */
  method CleanSummary(text: Value) returns (r: Result<string, Error>)
    ensures r == Cleaned(text)
  {
    if !Truthy(text) {
      return Success("");
    }
    if !text.VStr? {
      return Failure(TypeError);
    }
    LabelsNonEmpty();
    var t := RemoveEach(CollapseRuns(text.s, Bullets), Labels);
    ClinicalFormatter.ToneNonEmpty();
    t := ReplaceEach(t, ClinicalFormatter.Tone);
    r := Success(Strip(CollapseSpaces(t)));
  }

  /** The cleaned text is single-spaced with no whitespace at either end. */
  lemma CleanedSingleSpaced(s: string)
    ensures SingleSpaced(CleanedText(s))
  {
    LabelsNonEmpty();
    ClinicalFormatter.ToneNonEmpty();
    var c := CollapseSpaces(ReplaceAll(RemoveAll(CollapseRuns(s, Bullets), Labels), ClinicalFormatter.Tone));
    ClinicalFormatter.StripKeepsSingleSpaced(c);
  }

  // ---------------------------------------------------------------------
  // format_for_clinician (lines 31-59)

  /** The dict handed to the UI, one field per key. */
  datatype LegacyView = LegacyView(
    patientVoice: Value, emotions: seq<string>, metaphor: seq<string>, risk: seq<string>, summary: string,
    uncertainties: seq<string>, notes: seq<string>)

  /** `[default] if result.get("metaphor") in ["neutral", None] else [f"- {result['metaphor']}"]`. */
  function MetaphorLines(rt: Runtime, result: Entries): (r: seq<string>)
    ensures |r| == 1
  {
    var m := GetOr(result, "metaphor", VNone);
    if m == VStr("neutral") || m == VNone then [ChestLine] else ["- " + Str(rt, m)]
  }

  /**
   * `f"- {result['risk']['risk_level'].capitalize()} clinical urgency"`: a
   * missing key raises KeyError, a non-dict risk TypeError, and a non-string
   * level AttributeError.
   */
  function RiskLine(result: Entries): (r: Result<string, Error>)
    ensures r.Success? <==>
      && Has(result, "risk") && Lookup(result, "risk").value.VDict?
      && Has(Lookup(result, "risk").value.entries, "risk_level")
      && Lookup(Lookup(result, "risk").value.entries, "risk_level").value.VStr?
    ensures r.Success? ==>
      r.value == "- " + Capitalize(Lookup(Lookup(result, "risk").value.entries, "risk_level").value.s) + " clinical urgency"
  {
    var risk := Lookup(result, "risk");
    if risk.None? then Failure(KeyError)
    else if !risk.value.VDict? then Failure(TypeError)
    else
      var level := Lookup(risk.value.entries, "risk_level");
      if level.None? then Failure(KeyError)
      else if !level.value.VStr? then Failure(AttributeError)
      else Success("- " + Capitalize(level.value.s) + " clinical urgency")
  }

  /** `format_for_clinician(result)`, its entries evaluated in the dict literal's order. */
  function ForClinician(rt: Runtime, result: Entries): (r: Result<LegacyView, Error>)
    ensures r.Success? ==> r.value.uncertainties == FixedUncertainties && r.value.notes == FixedNotes
    ensures r.Success? ==> |r.value.metaphor| == 1 && |r.value.risk| == 1 && |r.value.emotions| > 0
  {
    var voice := Lookup(result, "patient_voice");
    if voice.None? then Failure(KeyError)
    else
      var emotions :- EmotionClinical(GetOr(result, "emotions", VList([])));
      var risk :- RiskLine(result);
      var summary := Lookup(result, "summary");
      if summary.None? then Failure(KeyError)
      else
        var cleaned :- Cleaned(summary.value);
        Success(LegacyView(voice.value, emotions, MetaphorLines(rt, result), [risk], cleaned,
          FixedUncertainties, FixedNotes))
  }

  /**
   * The keys the legacy formatter insists on: without "patient_voice",
   * "risk" or "summary" it raises KeyError, and "patient_voice" is checked
   * before anything else.
   */
  lemma RequiredKeys(rt: Runtime, result: Entries)
    ensures !Has(result, "patient_voice") ==> ForClinician(rt, result) == Failure(KeyError)
    ensures !Has(result, "risk") && Has(result, "patient_voice") && EmotionClinical(GetOr(result, "emotions", VList([]))).Success?
      ==> ForClinician(rt, result) == Failure(KeyError)
    ensures ForClinician(rt, result).Success? ==> Has(result, "patient_voice") && Has(result, "risk") && Has(result, "summary")
  {
  }

  /**
   * On success the patient voice is the result's own, the emotion lines are
   * the emotion formatter's, the risk line is the one built from the level,
   * the summary is the cleaned text, and the metaphor line is the
   * chest-heaviness default for "neutral" or a missing/None metaphor and
   * the `str()` of the metaphor otherwise (the text itself for a string).
   */
  lemma ForClinicianFields(rt: Runtime, result: Entries)
    requires ForClinician(rt, result).Success?
    ensures var v := ForClinician(rt, result).value;
      var m := GetOr(result, "metaphor", VNone);
      && RiskLine(result).Success? && v.risk == [RiskLine(result).value]
      && v.summary == Cleaned(Lookup(result, "summary").value).value
      && (m == VStr("neutral") || m == VNone ==> v.metaphor == [ChestLine])
      && (m.VStr? && m.s != "neutral" ==> v.metaphor == ["- " + m.s])
      && (m != VStr("neutral") && m != VNone ==> v.metaphor == ["- " + Str(rt, m)])
      && Has(result, "patient_voice") && v.patientVoice == Lookup(result, "patient_voice").value
      && EmotionClinical(GetOr(result, "emotions", VList([]))) == Success(v.emotions)
  {
  }
}
