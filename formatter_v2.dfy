/**
 * The clinician-facing formatter (formatter/clinical_formatter_v2.py): the
 * agents' results become display lines, the summary text is normalised, and
 * one nine-key dict is handed to the UI.
 *
 * The icon literals in that file are UTF-8 emoji bytes that were read back
 * as Windows-1252 text and saved again; the model keeps exactly those
 * characters.
 */
module ClinicalFormatter {
  import opened Wrappers
  import opened Text
  import opened Py
  import opened Rewrite

  const RedIcon := "\U{f0}\U{178}\U{201d}\U{b4}"
  const YellowIcon := "\U{f0}\U{178}\U{178}\U{a1}"
  const GreenIcon := "\U{f0}\U{178}\U{178}\U{a2}"
  const OrangeIcon := "\U{f0}\U{178}\U{178}\U{a0}"
  const WhiteIcon := "\U{e2}\U{161}\U{aa}"
  const SirenIcon := "\U{f0}\U{178}\U{161}\U{a8}"
  const WarningIcon := "\U{e2}\U{161}\U{a0}\U{ef}\U{b8}"

  const NoDistressLine := "- " + "No clinically significant emotional distress identified"
  const NoMetaphorLine := "- " + "No metaphorical language identified"

  predicate Prefix(p: string, s: string) {
    |p| <= |s| && s[..|p|] == p
  }

  /** The number a successful `>=` against a float compared: a number, or a boolean as 1 or 0. */
  function Numeric(v: Value): real {
    match v
    case VNum(n) => n
    case VBool(b) => if b then 1.0 else 0.0
    case _ => 0.0
  }

  /** `f"{v:.2f}"`: numbers and booleans format, a string raises ValueError, anything else TypeError. */
  function Fixed(rt: Runtime, v: Value): (r: Result<string, Error>)
    ensures v.VNum? ==> r == Success(rt.fixed2(v.n))
    ensures v.VStr? ==> r == Failure(ValueError)
  {
    match v
    case VNum(n) => Success(rt.fixed2(n))
    case VBool(b) => Success(rt.fixed2(if b then 1.0 else 0.0))
    case VStr(_) => Failure(ValueError)
    case _ => Failure(TypeError)
  }

  /** `f"{heading}{', '.join(v)}"` when `v` is truthy, no line otherwise. */
  function JoinedLine(heading: string, v: Value): (r: Result<seq<string>, Error>)
    ensures !Truthy(v) ==> r == Success([])
    ensures v.VList? && |v.items| > 0 && (forall i | 0 <= i < |v.items| :: v.items[i].VStr?) ==>
      r == Success([heading + Join(", ", Texts(v.items))])
    ensures r.Success? ==> (|r.value| == 1 <==> Truthy(v)) && |r.value| <= 1
    ensures r.Success? && |r.value| == 1 ==> Prefix(heading, r.value[0])
  {
    if !Truthy(v) then Success([])
    else
      var items :- ToList(v);
      var s :- JoinStrs(", ", items);
      Success([heading + s])
  }

  // ---------------------------------------------------------------------
  // format_emotion_clinical (lines 9-41)

  /** `emotion_result` itself when it is a list, else its "emotions"; `.get` exists on dicts only. */
  function EmotionsOf(emotionResult: Value): (r: Result<Value, Error>)
    ensures emotionResult.VList? ==> r == Success(emotionResult)
    ensures emotionResult.VDict? ==> r == Success(GetOr(emotionResult.entries, "emotions", VList([])))
    ensures !emotionResult.VList? && !emotionResult.VDict? ==> r == Failure(AttributeError)
  {
    match emotionResult
    case VList(_) => Success(emotionResult)
    case VDict(d) => Success(GetOr(d, "emotions", VList([])))
    case _ => Failure(AttributeError)
  }

  /** The icon and the words that open a line for an intensity of at least 0.4. */
  function Badge(intensity: real): string {
    if intensity >= 0.7 then RedIcon + " **Marked " else YellowIcon + " **Moderate "
  }

  /** The display line for one kept entry (lines 36-39). */
  function EmotionText(rt: Runtime, e: Entries): string {
    var intensity := GetOr(e, "intensity", VNum(0.0));
    var term := GetOr(e, "clinical_term", GetOr(e, "emotion", VStr("unknown")));
    Badge(Numeric(intensity)) + Str(rt, term) + "** (intensity: " + rt.fixed2(Numeric(intensity)) + ", "
      + Str(rt, GetOr(e, "significance", VStr("medium"))) + " significance)"
  }

  /** One pass of the loop (lines 21-39): no line below 0.4; a non-dict or a non-number intensity raises. */
  function EmotionLine(rt: Runtime, e: Value): (r: Result<seq<string>, Error>)
    ensures r.Success? ==> |r.value| <= 1
  {
    if !e.VDict? then Failure(AttributeError)
    else
      var intensity := GetOr(e.entries, "intensity", VNum(0.0));
      var marked :- AtLeast(intensity, 0.7);
      var moderate :- if marked then Success(true) else AtLeast(intensity, 0.4);
      if moderate then Success([EmotionText(rt, e.entries)]) else Success([])
  }

  /** The lines the loop collects over `items`, or the first exception it meets. */
  function EmotionLines(rt: Runtime, items: seq<Value>): (r: Result<seq<string>, Error>)
    ensures r.Success? ==> |r.value| <= |items|
  {
    if |items| == 0 then Success([])
    else
      var init :- EmotionLines(rt, items[..|items| - 1]);
      var line :- EmotionLine(rt, items[|items| - 1]);
      Success(init + line)
  }

  /** `format_emotion_clinical(emotion_result)`. */
  function EmotionClinical(rt: Runtime, emotionResult: Value): (r: Result<seq<string>, Error>)
    ensures r.Success? ==> |r.value| > 0
  {
    var emotions :- EmotionsOf(emotionResult);
    if !Truthy(emotions) then Success([NoDistressLine])
    else
      var items :- ToList(emotions);
      var lines :- EmotionLines(rt, items);
      Success(if |lines| == 0 then [NoDistressLine] else lines)
  }

  /** Once the loop has raised, later entries change nothing. */
  lemma {:induction false} EmotionFailureSticks(rt: Runtime, items: seq<Value>, i: int)
    requires 0 <= i <= |items| && EmotionLines(rt, items[..i]).Failure?
    ensures EmotionLines(rt, items) == EmotionLines(rt, items[..i])
    decreases |items| - i
  {
    if i < |items| {
      assert items[..i + 1][..i] == items[..i];
      EmotionFailureSticks(rt, items, i + 1);
    } else {
      assert items[..i] == items;
    }
  }

  /** One more entry: the lines so far, followed by that entry's line. */
  lemma EmotionLinesStep(rt: Runtime, items: seq<Value>, i: int)
    requires 0 <= i < |items| && EmotionLines(rt, items[..i]).Success?
    ensures EmotionLine(rt, items[i]).Failure? ==> EmotionLines(rt, items[..i + 1]) == Failure(EmotionLine(rt, items[i]).error)
    ensures EmotionLine(rt, items[i]).Success? ==>
      EmotionLines(rt, items[..i + 1]) == Success(EmotionLines(rt, items[..i]).value + EmotionLine(rt, items[i]).value)
  {
    assert items[..i + 1][..i] == items[..i];
  }

  /** An entry of intensity at least 0.4 yields its display line. */
  lemma EmotionLineShown(rt: Runtime, e: Value)
    requires e.VDict?
    requires AtLeast(GetOr(e.entries, "intensity", VNum(0.0)), 0.7) == Success(true)
          || AtLeast(GetOr(e.entries, "intensity", VNum(0.0)), 0.4) == Success(true)
    ensures EmotionLine(rt, e) == Success([EmotionText(rt, e.entries)])
  {
  }

  /** One pass of the loop (lines 21-39) on entry `e`: its line, if any, or the exception. */
  method EntryLine(rt: Runtime, e: Value) returns (r: Result<seq<string>, Error>)
    ensures r == EmotionLine(rt, e)
  {
    if !e.VDict? {
      return Failure(AttributeError);
    }
    var intensity := GetOr(e.entries, "intensity", VNum(0.0));
    var marked := AtLeast(intensity, 0.7);
    if marked.Failure? {
      return Failure(marked.error);
    }
    if !marked.value {
      var moderate := AtLeast(intensity, 0.4);
      if moderate.Failure? {
        return Failure(moderate.error);
      }
      if !moderate.value {
        return Success([]);
      }
    }
    EmotionLineShown(rt, e);
    r := Success([EmotionText(rt, e.entries)]);
  }

  /** `format_emotion_clinical`, appending one line per kept entry. */
  method FormatEmotionClinical(rt: Runtime, emotionResult: Value) returns (r: Result<seq<string>, Error>)
    ensures r == EmotionClinical(rt, emotionResult)
  {
    var emotions: Value;
    if emotionResult.VList? {
      emotions := emotionResult;
    } else if emotionResult.VDict? {
      emotions := GetOr(emotionResult.entries, "emotions", VList([]));
    } else {
      return Failure(AttributeError);
    }
    if !Truthy(emotions) {
      return Success([NoDistressLine]);
    }
    var list := ToList(emotions);
    if list.Failure? {
      return Failure(list.error);
    }
    var items := list.value;
    var formatted: seq<string> := [];
    var i := 0;
    while i < |items|
      invariant 0 <= i <= |items|
      invariant EmotionLines(rt, items[..i]) == Success(formatted)
    {
      EmotionLinesStep(rt, items, i);
      var line := EntryLine(rt, items[i]);
      if line.Failure? {
        EmotionFailureSticks(rt, items, i + 1);
        return Failure(line.error);
      }
      formatted := formatted + line.value;
      i := i + 1;
    }
    assert items[..|items|] == items;
    if |formatted| == 0 {
      formatted := [NoDistressLine];
    }
    r := Success(formatted);
  }

  /** Every entry is a dict whose intensity, given or defaulted, is a number. */
  predicate Graded(items: seq<Value>) {
    forall i | 0 <= i < |items| :: items[i].VDict? && GetOr(items[i].entries, "intensity", VNum(0.0)).VNum?
  }

  function Intensity(e: Value): real {
    if e.VDict? then Numeric(GetOr(e.entries, "intensity", VNum(0.0))) else 0.0
  }

  /** The entries with intensity at least 0.4, in order. */
  function Kept(items: seq<Value>): (r: seq<Value>)
    ensures |r| <= |items|
    ensures forall i | 0 <= i < |r| :: r[i] in items && Intensity(r[i]) >= 0.4
  {
    if |items| == 0 then []
    else
      var last := items[|items| - 1];
      Kept(items[..|items| - 1]) + if Intensity(last) >= 0.4 then [last] else []
  }

  /**
   * Over well-typed entries the loop never raises and yields one line per
   * entry of intensity at least 0.4, in order: "Marked" with the red icon
   * from 0.7 up, "Moderate" with the yellow icon below that.
   */
  lemma {:induction false} EmotionLinesKept(rt: Runtime, items: seq<Value>)
    requires Graded(items)
    ensures EmotionLines(rt, items).Success?
    ensures |EmotionLines(rt, items).value| == |Kept(items)|
    ensures forall i | 0 <= i < |Kept(items)| ::
      Kept(items)[i].VDict? && EmotionLines(rt, items).value[i] == EmotionText(rt, Kept(items)[i].entries)
  {
    if |items| > 0 {
      var init := items[..|items| - 1];
      assert Graded(init) by {
        forall i | 0 <= i < |init| ensures init[i].VDict? && GetOr(init[i].entries, "intensity", VNum(0.0)).VNum? {
          assert init[i] == items[i];
        }
      }
      EmotionLinesKept(rt, init);
      var last := items[|items| - 1];
      assert last.VDict? && GetOr(last.entries, "intensity", VNum(0.0)).VNum?;
    }
  }

  /** Each kept line opens with the badge its intensity earns and names the entry's clinical term. */
  lemma EmotionTextBadge(rt: Runtime, e: Entries)
    ensures var x := Numeric(GetOr(e, "intensity", VNum(0.0)));
      Prefix(Badge(x) + Str(rt, GetOr(e, "clinical_term", GetOr(e, "emotion", VStr("unknown")))), EmotionText(rt, e))
    ensures var x := Numeric(GetOr(e, "intensity", VNum(0.0)));
      Prefix(if x >= 0.7 then RedIcon + " **Marked " else YellowIcon + " **Moderate ", EmotionText(rt, e))
  {
  }

  /**
   * With well-typed entries the default line is returned exactly when no
   * entry reaches 0.4; a bare list and a dict holding it under "emotions"
   * format alike.
   */
  lemma EmotionDefaultIff(rt: Runtime, items: seq<Value>)
    requires Graded(items)
    ensures EmotionClinical(rt, VList(items)) == EmotionClinical(rt, VDict([("emotions", VList(items))]))
    ensures EmotionClinical(rt, VList(items)).Success?
    ensures EmotionClinical(rt, VList(items)) == Success([NoDistressLine]) <==> |Kept(items)| == 0
  {
    EmotionLinesKept(rt, items);
    if |Kept(items)| > 0 {
      var line := EmotionLines(rt, items).value[0];
      assert line == EmotionText(rt, Kept(items)[0].entries);
      EmotionTextOpens(rt, Kept(items)[0].entries);
      assert NoDistressLine[0] == '-';
    }
  }

  /** Every kept line opens with an icon, never with the default line's dash. */
  lemma EmotionTextOpens(rt: Runtime, e: Entries)
    ensures |EmotionText(rt, e)| > 0 && EmotionText(rt, e)[0] == '\U{f0}'
  {
    var b := Badge(Numeric(GetOr(e, "intensity", VNum(0.0))));
    assert b[0] == '\U{f0}';
  }

  // ---------------------------------------------------------------------
  // format_metaphor_clinical (lines 44-70)

  /** Green for "high", yellow for "medium", orange for anything else. */
  function ConfidenceIcon(confidence: Value): string {
    if confidence == VStr("high") then GreenIcon else if confidence == VStr("medium") then YellowIcon else OrangeIcon
  }

  /** `format_metaphor_clinical(metaphor_result)`. */
  function MetaphorClinical(rt: Runtime, metaphorResult: Value): (r: Result<seq<string>, Error>)
    ensures metaphorResult.VStr? ==>
      r == Success([if |metaphorResult.s| > 0 then "- " + metaphorResult.s else NoMetaphorLine])
    ensures !metaphorResult.VStr? && !metaphorResult.VDict? ==> r == Failure(AttributeError)
    ensures r.Success? ==> 1 <= |r.value| <= 3
  {
    match metaphorResult
    case VStr(s) => Success([if |s| > 0 then "- " + s else NoMetaphorLine])
    case VDict(d) =>
      var translation := GetOr(d, "clinical_translation", VStr(""));
      var confidence := GetOr(d, "confidence", VStr("medium"));
      var first := if Truthy(translation) then
        [ConfidenceIcon(confidence) + " **Clinical Translation:** " + Str(rt, translation) + " ("
          + Str(rt, confidence) + " confidence)"]
        else [];
      var second :- JoinedLine("**Identified Metaphors:** ", GetOr(d, "metaphors", VList([])));
      var third :- JoinedLine("**Uncertainties:** ", GetOr(d, "uncertainties", VList([])));
      var lines := first + second + third;
      Success(if |lines| == 0 then [NoMetaphorLine] else lines)
    case _ => Failure(AttributeError)
  }

  /** For a dict, the default line stands exactly when translation, metaphors and uncertainties are all falsy. */
  lemma MetaphorDefaultIff(rt: Runtime, d: Entries)
    requires MetaphorClinical(rt, VDict(d)).Success?
    ensures MetaphorClinical(rt, VDict(d)).value == [NoMetaphorLine] <==>
      && !Truthy(GetOr(d, "clinical_translation", VStr("")))
      && !Truthy(GetOr(d, "metaphors", VList([])))
      && !Truthy(GetOr(d, "uncertainties", VList([])))
  {
    var lines := MetaphorClinical(rt, VDict(d)).value;
    var second := JoinedLine("**Identified Metaphors:** ", GetOr(d, "metaphors", VList([])));
    var third := JoinedLine("**Uncertainties:** ", GetOr(d, "uncertainties", VList([])));
    assert second.Success? && third.Success?;
    assert NoMetaphorLine[0] == '-';
    if Truthy(GetOr(d, "clinical_translation", VStr(""))) {
      assert lines[0][0] == ConfidenceIcon(GetOr(d, "confidence", VStr("medium")))[0] == '\U{f0}';
    } else if Truthy(GetOr(d, "metaphors", VList([]))) {
      assert lines[0] == second.value[0];
      assert lines[0][0] == "**Identified Metaphors:** "[0];
    } else if Truthy(GetOr(d, "uncertainties", VList([]))) {
      assert lines[0] == third.value[0];
      assert lines[0][0] == "**Uncertainties:** "[0];
    }
  }

  /**
   * For a dict, the translation line comes first, then the metaphors line,
   * then the uncertainties line, each only when its value is truthy.
   */
  lemma MetaphorOrder(rt: Runtime, d: Entries)
    requires MetaphorClinical(rt, VDict(d)).Success?
    ensures var lines := MetaphorClinical(rt, VDict(d)).value;
      var t := Truthy(GetOr(d, "clinical_translation", VStr("")));
      var m := Truthy(GetOr(d, "metaphors", VList([])));
      var u := Truthy(GetOr(d, "uncertainties", VList([])));
      && (t ==> Prefix(ConfidenceIcon(GetOr(d, "confidence", VStr("medium"))) + " **Clinical Translation:** ", lines[0]))
      && (m ==> Prefix("**Identified Metaphors:** ", lines[if t then 1 else 0]))
      && (u ==> Prefix("**Uncertainties:** ", lines[|lines| - 1]))
  {
    var second := JoinedLine("**Identified Metaphors:** ", GetOr(d, "metaphors", VList([])));
    var third := JoinedLine("**Uncertainties:** ", GetOr(d, "uncertainties", VList([])));
    assert second.Success? && third.Success?;
  }

  // ---------------------------------------------------------------------
  // format_risk_clinical (lines 73-110)

  /** `risk_icons.get(risk_level, ...)`: a list or dict level is unhashable and raises TypeError. */
  function RiskIcon(level: Value): (r: Result<string, Error>)
    ensures level.VList? || level.VDict? <==> r.Failure?
  {
    match level
    case VList(_) => Failure(TypeError)
    case VDict(_) => Failure(TypeError)
    case _ =>
      Success(if level == VStr("high") then RedIcon
        else if level == VStr("moderate") then YellowIcon
        else if level == VStr("low") then GreenIcon
        else WhiteIcon)
  }

  /** A non-dict risk result becomes `{"risk_level": str(v) if v else "low"}`. */
  function RiskDict(rt: Runtime, risk: Value): (d: Entries)
    ensures risk.VDict? ==> d == risk.entries
    ensures !risk.VDict? ==> d == [("risk_level", VStr(StrIfTruthy(rt, risk)))] || d == [("risk_level", VStr("low"))]
  {
    if risk.VDict? then risk.entries
    else [("risk_level", VStr(if Truthy(risk) then Str(rt, risk) else "low"))]
  }

  /** The level line (lines 96-99). */
  function LevelLine(rt: Runtime, icon: string, level: string, confidence: Value, urgency: string): string {
    icon + " **" + Upper(level) + " Clinical Urgency** (confidence: " + Str(rt, confidence) + ", urgency score: "
      + urgency + ")"
  }

  /** `format_risk_clinical(risk_result)`. */
  function RiskClinical(rt: Runtime, risk: Value): (r: Result<seq<string>, Error>)
    ensures r.Success? ==> 1 <= |r.value| <= 4
  {
    var d := RiskDict(rt, risk);
    var level := GetOr(d, "risk_level", VStr("low"));
    var icon :- RiskIcon(level);
    if !level.VStr? then Failure(AttributeError)
    else
      var urgency :- Fixed(rt, GetOr(d, "urgency_score", VNum(0.0)));
      var rationale := GetOr(d, "rationale", VStr(""));
      var why := if Truthy(rationale) then ["*Rationale:* " + Str(rt, rationale)] else [];
      var flags :- JoinedLine("**" + SirenIcon + " Red Flags:** ", GetOr(d, "red_flags", VList([])));
      var missing :- JoinedLine("**" + WarningIcon + " Missing Information:** ", GetOr(d, "missing_info", VList([])));
      Success([LevelLine(rt, icon, level.s, GetOr(d, "confidence", VStr("medium")), urgency)] + why + flags + missing)
  }

  /**
   * The first line always states the upper-cased level with its icon, the
   * urgency score and the confidence; rationale, red flags and missing
   * information add a line each, and only when present.
   */
  lemma RiskLevelFirst(rt: Runtime, risk: Value)
    requires RiskClinical(rt, risk).Success?
    ensures var d := RiskDict(rt, risk);
      var level := GetOr(d, "risk_level", VStr("low"));
      var lines := RiskClinical(rt, risk).value;
      && level.VStr?
      && lines[0] == LevelLine(rt, RiskIcon(level).value, level.s, GetOr(d, "confidence", VStr("medium")),
                               Fixed(rt, GetOr(d, "urgency_score", VNum(0.0))).value)
      && |lines| == 1
         + (if Truthy(GetOr(d, "rationale", VStr(""))) then 1 else 0)
         + (if Truthy(GetOr(d, "red_flags", VList([]))) then 1 else 0)
         + (if Truthy(GetOr(d, "missing_info", VList([]))) then 1 else 0)
  {
    var d := RiskDict(rt, risk);
    var flags := JoinedLine("**" + SirenIcon + " Red Flags:** ", GetOr(d, "red_flags", VList([])));
    var missing := JoinedLine("**" + WarningIcon + " Missing Information:** ", GetOr(d, "missing_info", VList([])));
    assert flags.Success? && missing.Success?;
  }

  /** Red is for "high" only, yellow for "moderate" only, green for "low" only; any other level is white. */
  lemma RiskIconIff(level: Value)
    requires RiskIcon(level).Success?
    ensures RiskIcon(level).value == RedIcon <==> level == VStr("high")
    ensures RiskIcon(level).value == YellowIcon <==> level == VStr("moderate")
    ensures RiskIcon(level).value == GreenIcon <==> level == VStr("low")
    ensures RiskIcon(level).value == WhiteIcon <==> level !in {VStr("high"), VStr("moderate"), VStr("low")}
  {
    assert RedIcon[2] != YellowIcon[2] && RedIcon[2] != GreenIcon[2] && |RedIcon| != |WhiteIcon|;
    assert YellowIcon[3] != GreenIcon[3] && |YellowIcon| != |WhiteIcon| && |GreenIcon| != |WhiteIcon|;
  }

  /** A dict holding only a level leaves every other field to its default. */
  lemma LevelOnlyDefaults(level: Value)
    ensures var d := [("risk_level", level)];
      && GetOr(d, "risk_level", VStr("low")) == level
      && GetOr(d, "urgency_score", VNum(0.0)) == VNum(0.0)
      && GetOr(d, "rationale", VStr("")) == VStr("")
      && GetOr(d, "red_flags", VList([])) == VList([])
      && GetOr(d, "missing_info", VList([])) == VList([])
      && GetOr(d, "confidence", VStr("medium")) == VStr("medium")
  {
    var d := [("risk_level", level)];
    assert "risk_level"[1] != "urgency_score"[1] && "risk_level"[2] != "rationale"[2];
    assert "risk_level"[2] != "red_flags"[2] && "risk_level"[0] != "missing_info"[0];
    assert "risk_level"[0] != "confidence"[0];
    LookupMeaning(d, "urgency_score");
    LookupMeaning(d, "rationale");
    LookupMeaning(d, "red_flags");
    LookupMeaning(d, "missing_info");
    LookupMeaning(d, "confidence");
  }

  /** A non-dict risk result formats as a dict holding only its level; a falsy one reads as "low". */
  lemma RiskFromLevelOnly(rt: Runtime, risk: Value)
    requires !risk.VDict?
    ensures RiskClinical(rt, risk) ==
      RiskClinical(rt, VDict([("risk_level", VStr(if Truthy(risk) then Str(rt, risk) else "low"))]))
    ensures !Truthy(risk) ==> RiskClinical(rt, risk) == Success([LevelLine(rt, GreenIcon, "low", VStr("medium"), rt.fixed2(0.0))])
  {
    var d := RiskDict(rt, risk);
    LevelOnlyDefaults(d[0].1);
    if !Truthy(risk) {
      assert GetOr(d, "risk_level", VStr("low")) == VStr("low");
      assert RiskIcon(VStr("low")) == Success(GreenIcon);
      assert Fixed(rt, VNum(0.0)) == Success(rt.fixed2(0.0));
      assert JoinedLine("**" + SirenIcon + " Red Flags:** ", VList([])) == Success([]);
      assert JoinedLine("**" + WarningIcon + " Missing Information:** ", VList([])) == Success([]);
      var line := LevelLine(rt, GreenIcon, "low", VStr("medium"), rt.fixed2(0.0));
      assert RiskClinical(rt, risk) == Success([line] + [] + [] + []);
      assert [line] + [] + [] + [] == [line];
    }
  }

  // ---------------------------------------------------------------------
  // clean_summary (lines 113-173)

  /** The characters of `[â€¢Â·\.]`: the mis-decoded bullet and middle dot, and the full stop. */
  const Bullets: set<char> := {'\U{e2}', '\U{20ac}', '\U{a2}', '\U{c2}', '\U{b7}', '.'}

  /** Lines 126-150: structural labels and headings, removed in this order. */
  const Labels: seq<string> := [
    "Associated Emotional State", "Clinical Impression", "Uncertainties", "Information Gaps", "Context",
    "Emotional signals", "Risk assessment", "Associated E", "Presenting Description:", "Symptom Interpretation:",
    "Emotional State:", "Risk Assessment:", "Clinical Impression:", "Uncertainties:", "Notes for Clinician:",
    "Clinical Synthesis Note Date", "Clinical Synthesis Agent ID", "Clinical Synthesis Agent Analysis",
    "Reasoning and Synthesis", "## Clinical Synthesis Agent Analysis", "### Reasoning and Synthesis"]

  /** Lines 159-165: tone replacements, applied in this order. */
  const Tone: seq<(string, string)> := [
    ("the patient", "Patient"), ("The patient", "Patient"), ("reports", "describes"),
    ("appears to", "is noted to"), ("suggests", "is suggestive of")]

  lemma LabelsNonEmpty()
    ensures forall i | 0 <= i < |Labels| :: |Labels[i]| > 0
  {
  }

  lemma ToneNonEmpty()
    ensures forall i | 0 <= i < |Tone| :: |Tone[i].0| > 0
  {
  }

  /** The text once the labels are gone and a leading heading is stripped (lines 122-156). */
  function Unlabelled(text: string): string {
    LabelsNonEmpty();
    StripHeading(Strip(RemoveAll(CollapseRuns(text, Bullets), Labels)))
  }

  /** The text after the tone replacements (lines 158-168), before whitespace is collapsed. */
  function Toned(text: string): string {
    ToneNonEmpty();
    ReplaceAll(Unlabelled(text), Tone)
  }

  /** `clean_summary(text)` on a string. */
  function Cleaned(text: string): (r: string)
    ensures |text| == 0 ==> r == ""
    ensures |r| > 0 ==> !IsSpace(r[0]) && !IsSpace(r[|r| - 1])
  {
    if |text| == 0 then "" else Strip(CollapseSpaces(Toned(text)))
  }

  /** `clean_summary`, rewriting the text step by step. */
  method CleanSummary(text: string) returns (r: string)
    ensures r == Cleaned(text)
  {
    if |text| == 0 {
      return "";
    }
    LabelsNonEmpty();
    var t := RemoveEach(CollapseRuns(text, Bullets), Labels);
    t := StripHeading(Strip(t));
    ToneNonEmpty();
    t := ReplaceEach(t, Tone);
    r := Strip(CollapseSpaces(t));
  }

  /**
   * The cleaned summary is single-spaced: its only whitespace is the plain
   * space, never two in a row, and none at either end.
   */
  lemma CleanedSingleSpaced(text: string)
    ensures SingleSpaced(Cleaned(text))
  {
    if |text| > 0 {
      StripKeepsSingleSpaced(CollapseSpaces(Toned(text)));
    }
  }

  /** Collapsing whitespace changes nothing else: every other character survives, in order. */
  lemma CleanedKeepsVisible(text: string)
    requires |text| > 0
    ensures Visible(Cleaned(text)) == Visible(Toned(text))
  {
    var c := CollapseSpaces(Toned(text));
    CollapseKeepsVisible(Toned(text));
    StripKeepsVisible(c);
  }

  /**
   * Text with nothing to clean comes back unchanged: no dot run, label,
   * leading '#', tone phrase, or whitespace other than single inner spaces.
   */
  lemma CleanedFixesClean(text: string)
    requires |text| > 0 && text[0] != '#'
    requires SingleSpaced(text) && !IsSpace(text[0]) && !IsSpace(text[|text| - 1])
    requires NoRun(text, Bullets)
    requires forall i, j | 0 <= i < |Labels| :: !Hit(text, Labels[i], j, false)
    requires forall i, j | 0 <= i < |Tone| :: !Hit(text, Tone[i].0, j, false)
    ensures Cleaned(text) == text
  {
    CollapseRunsNoRun(text, Bullets);
    LabelsNonEmpty();
    assert RemoveAll(text, Labels) == text;
    StripOfStripped(text);
    assert Unlabelled(text) == text;
    ToneNonEmpty();
    assert Toned(text) == text;
    CollapseSingleSpaced(text);
  }

  lemma StripKeepsSingleSpaced(s: string)
    requires SingleSpaced(s)
    ensures SingleSpaced(Strip(s))
  {
    var r := Strip(s);
    var lo := LeadingSpaces(s);
    forall i | 0 <= i < |r| ensures IsSpace(r[i]) ==> r[i] == ' ' {
      assert r[i] == s[lo + i];
    }
    forall i | 0 <= i < |r| - 1 ensures !(r[i] == ' ' && r[i + 1] == ' ') {
      assert r[i] == s[lo + i] && r[i + 1] == s[lo + i + 1];
    }
  }

  lemma StripKeepsVisible(s: string)
    ensures Visible(Strip(s)) == Visible(s)
  {
    var r := Strip(s);
    var lo := LeadingSpaces(s);
    assert TrimmedBy(s, r, lo);
    VisibleLeadingSpaces(s, lo);
    var tail := s[lo + |r|..];
    assert s[lo..] == r + tail;
    VisibleConcat(r, tail);
    forall i | 0 <= i < |tail| ensures IsSpace(tail[i]) {
      assert tail[i] == s[lo + |r| + i];
    }
    VisibleOfSpaces(tail);
  }

  lemma {:induction false} VisibleConcat(a: string, b: string)
    ensures Visible(a + b) == Visible(a) + Visible(b)
    decreases |a|
  {
    if |a| > 0 {
      assert (a + b)[1..] == a[1..] + b;
      VisibleConcat(a[1..], b);
    } else {
      assert a + b == b;
    }
  }

  lemma {:induction false} VisibleOfSpaces(s: string)
    requires forall i | 0 <= i < |s| :: IsSpace(s[i])
    ensures Visible(s) == ""
    decreases |s|
  {
    if |s| > 0 {
      VisibleOfSpaces(s[1..]);
    }
  }

  lemma {:induction false} CollapseRunsNoRun(s: string, cls: set<char>)
    requires ' ' !in cls && NoRun(s, cls)
    ensures CollapseRuns(s, cls) == s
    decreases |s|
  {
    if |s| > 0 {
      assert NoRun(s[1..], cls) by {
        forall i | 0 <= i < |s[1..]| - 1 ensures !(s[1..][i] in cls && s[1..][i + 1] in cls) {
          assert s[1..][i] == s[i + 1] && s[1..][i + 1] == s[i + 2];
        }
      }
      CollapseRunsNoRun(s[1..], cls);
      assert s == [s[0]] + s[1..];
    }
  }

  lemma {:induction false} CollapseSingleSpaced(s: string)
    requires SingleSpaced(s)
    ensures CollapseSpaces(s) == s
    decreases |s|
  {
    if |s| > 0 {
      var t := s[1..];
      assert SingleSpaced(t) by {
        forall i | 0 <= i < |t| ensures IsSpace(t[i]) ==> t[i] == ' ' {
          assert t[i] == s[i + 1];
        }
        forall i | 0 <= i < |t| - 1 ensures !(t[i] == ' ' && t[i + 1] == ' ') {
          assert t[i] == s[i + 1] && t[i + 1] == s[i + 2];
        }
      }
      CollapseSingleSpaced(t);
      if IsSpace(s[0]) {
        assert LeadingSpaces(t) == 0;
        assert LeadingSpaces(s) == 1;
        assert s == " " + t;
      } else {
        assert s == [s[0]] + t;
      }
    }
  }

  // ---------------------------------------------------------------------
  // format_for_clinician (lines 176-278)

  const DefaultNotes: seq<string> := [
    "Correlate with vital signs and clinical examination",
    "Interpret in full clinical context",
    "This is a support tool, not a diagnostic system"]

  const NoSummary := "Clinical summary unavailable."

  /** `" ".join(str(item) for item in xs)`. */
  function SpaceJoined(rt: Runtime, xs: seq<Value>): string {
    Join(" ", seq(|xs|, i requires 0 <= i < |xs| => Str(rt, xs[i])))
  }

  /** `summary_data["structured"]` when the summary is a dict holding a dict there, else `{}` (lines 184-187). */
  function Structured(summaryData: Value): (s: Entries)
    ensures !summaryData.VDict? ==> s == []
  {
    if summaryData.VDict? then
      var s := GetOr(summaryData.entries, "structured", VDict([]));
      if s.VDict? then s.entries else []
    else []
  }

  /**
   * The summary text before cleaning (lines 183-210, and the conversion at
   * lines 246-247): for a dict, "full_summary", else "raw_summary", else the
   * structured clinical impression; a dict found there gives its own
   * "clinical_impression", a list is joined with spaces, and anything else
   * falsy reads as "".
   */
  function FullSummary(rt: Runtime, summaryData: Value): (full: string)
    ensures summaryData.VStr? ==> full == summaryData.s
    ensures summaryData.VList? ==> full == SpaceJoined(rt, summaryData.items)
  {
    match summaryData
    case VDict(sd) =>
      var structured := Structured(summaryData);
      var f1 := GetOr(sd, "full_summary", VStr(""));
      var f2 := if Truthy(f1) then f1 else GetOr(sd, "raw_summary", VStr(""));
      var f3 := if !Truthy(f2) && |structured| > 0 then GetOr(structured, "clinical_impression", VStr("")) else f2;
      var full := match f3
        case VDict(e) => GetOr(e, "clinical_impression", VStr(Str(rt, f3)))
        case VList(xs) => VStr(SpaceJoined(rt, xs))
        case _ => f3;
      StrIfTruthy(rt, full)
    case VStr(s) => s
    case VList(xs) => SpaceJoined(rt, xs)
    case _ => StrIfTruthy(rt, summaryData)
  }

  /** The summary shown: the cleaned text, or the fallback, unless a truthy structured impression replaces it (lines 244-266). */
  function ClinicianSummary(rt: Runtime, summaryData: Value): string {
    var full := FullSummary(rt, summaryData);
    var structured := Structured(summaryData);
    var impression := GetOr(structured, "clinical_impression", VNone);
    if |structured| > 0 && Truthy(impression) then Cleaned(Str(rt, impression))
    else if |full| > 0 then Cleaned(full)
    else NoSummary
  }

  /** A list stays as it is; anything else becomes `[str(x)]` when truthy and `[]` when not (lines 230-236). */
  function AsList(rt: Runtime, v: Value): (r: seq<Value>)
    ensures v.VList? ==> r == v.items
    ensures !v.VList? ==> |r| <= 1 && (|r| == 1 <==> Truthy(v))
  {
    if v.VList? then v.items else if Truthy(v) then [VStr(Str(rt, v))] else []
  }

  /** The clinician's notes, or the three default notes when there are none (lines 234-243). */
  function Notes(rt: Runtime, structured: Entries): (r: seq<Value>) {
    var notes := AsList(rt, GetOr(structured, "notes_for_clinician", VList([])));
    if |notes| == 0 then Strs(DefaultNotes) else notes
  }

  /** The dict handed to the UI, one field per key. */
  datatype ClinicianView = ClinicianView(
    patientVoice: Value, emotions: seq<string>, metaphor: seq<string>, risk: seq<string>, summary: string,
    uncertainties: seq<Value>, notes: seq<Value>, agentReasoning: Value, metadata: Value)

  const ClinicianKeys: seq<string> :=
    ["patient_voice", "emotions", "metaphor", "risk", "summary", "uncertainties", "notes", "agent_reasoning", "metadata"]

  /** The view as the Python dict, its nine keys in order. */
  function ViewDict(v: ClinicianView): (d: Entries)
    ensures Keys(d) == ClinicianKeys
  {
    [("patient_voice", v.patientVoice), ("emotions", VList(Strs(v.emotions))), ("metaphor", VList(Strs(v.metaphor))),
     ("risk", VList(Strs(v.risk))), ("summary", VStr(v.summary)), ("uncertainties", VList(v.uncertainties)),
     ("notes", VList(v.notes)), ("agent_reasoning", v.agentReasoning), ("metadata", v.metadata)]
  }

  /**
   * `format_for_clinician(result)`: the three formatters run in order and
   * their exceptions escape; nothing in the summary handling can raise.
   */
  function ForClinician(rt: Runtime, result: Entries): (r: Result<ClinicianView, Error>)
    ensures r.Success? ==> |r.value.emotions| > 0 && 1 <= |r.value.metaphor| <= 3 && 1 <= |r.value.risk| <= 4
  {
    var summaryData := GetOr(result, "summary", VDict([]));
    var structured := Structured(summaryData);
    var emotions :- EmotionClinical(rt, GetOr(result, "emotions", VDict([])));
    var metaphor :- MetaphorClinical(rt, GetOr(result, "metaphor", VDict([])));
    var risk :- RiskClinical(rt, GetOr(result, "risk", VDict([])));
    Success(ClinicianView(GetOr(result, "patient_voice", VStr("")), emotions, metaphor, risk,
      ClinicianSummary(rt, summaryData), AsList(rt, GetOr(structured, "uncertainties", VList([]))),
      Notes(rt, structured), GetOr(result, "agent_reasoning", VDict([])), GetOr(result, "processing_metadata", VDict([]))))
  }

  /** An exception from a formatter escapes, the emotion formatter's first, then the metaphor's, then the risk's. */
  lemma ForClinicianFails(rt: Runtime, result: Entries)
    ensures var e := EmotionClinical(rt, GetOr(result, "emotions", VDict([])));
      var m := MetaphorClinical(rt, GetOr(result, "metaphor", VDict([])));
      var k := RiskClinical(rt, GetOr(result, "risk", VDict([])));
      var r := ForClinician(rt, result);
      && (r.Failure? <==> e.Failure? || m.Failure? || k.Failure?)
      && (e.Failure? ==> r == Failure(e.error))
      && (e.Success? && m.Failure? ==> r == Failure(m.error))
      && (e.Success? && m.Success? && k.Failure? ==> r == Failure(k.error))
  {
  }

  /**
   * On success the notes are never empty, and the summary is either the
   * fallback sentence or single-spaced cleaned text.
   */
  lemma ForClinicianShape(rt: Runtime, result: Entries)
    requires ForClinician(rt, result).Success?
    ensures var v := ForClinician(rt, result).value;
      && |v.notes| > 0
      && (v.summary == NoSummary || SingleSpaced(v.summary))
  {
    var summaryData := GetOr(result, "summary", VDict([]));
    ViewSummaryAndNotes(rt, result);
    NotesNeverEmpty(rt, Structured(summaryData));
    SummaryShape(rt, summaryData);
  }

  /**
   * Each field of a successful view: the three formatters' lines, the
   * summary's uncertainties as a list, and the patient voice, reasoning
   * and metadata passed through with their defaults.
   */
  lemma ViewFields(rt: Runtime, result: Entries)
    requires ForClinician(rt, result).Success?
    ensures var v := ForClinician(rt, result).value;
      var structured := Structured(GetOr(result, "summary", VDict([])));
      && EmotionClinical(rt, GetOr(result, "emotions", VDict([]))) == Success(v.emotions)
      && MetaphorClinical(rt, GetOr(result, "metaphor", VDict([]))) == Success(v.metaphor)
      && RiskClinical(rt, GetOr(result, "risk", VDict([]))) == Success(v.risk)
      && v.uncertainties == AsList(rt, GetOr(structured, "uncertainties", VList([])))
      && v.patientVoice == GetOr(result, "patient_voice", VStr(""))
      && v.agentReasoning == GetOr(result, "agent_reasoning", VDict([]))
      && v.metadata == GetOr(result, "processing_metadata", VDict([]))
  {
  }

  /** The summary and the notes of the view come from the result's "summary" alone. */
  lemma ViewSummaryAndNotes(rt: Runtime, result: Entries)
    requires ForClinician(rt, result).Success?
    ensures var summaryData := GetOr(result, "summary", VDict([]));
      && ForClinician(rt, result).value.notes == Notes(rt, Structured(summaryData))
      && ForClinician(rt, result).value.summary == ClinicianSummary(rt, summaryData)
  {
  }

  /** An empty result still formats: the default emotion and metaphor lines, the fallback summary and the default notes. */
  lemma ForClinicianOfEmpty(rt: Runtime)
    ensures ForClinician(rt, []).Success?
    ensures var v := ForClinician(rt, []).value;
      && v.emotions == [NoDistressLine] && v.metaphor == [NoMetaphorLine] && |v.risk| == 1
      && v.summary == NoSummary && v.uncertainties == [] && v.notes == Strs(DefaultNotes)
  {
    assert RiskClinical(rt, VDict([])).Success? by {
      assert JoinedLine("**" + SirenIcon + " Red Flags:** ", VList([])) == Success([]);
      assert JoinedLine("**" + WarningIcon + " Missing Information:** ", VList([])) == Success([]);
    }
    assert MetaphorClinical(rt, VDict([])) == Success([NoMetaphorLine]) by {
      assert JoinedLine("**Identified Metaphors:** ", VList([])) == Success([]);
      assert JoinedLine("**Uncertainties:** ", VList([])) == Success([]);
    }
    RiskLevelFirst(rt, VDict([]));
    assert Structured(VDict([])) == [];
    assert FullSummary(rt, VDict([])) == "";
    assert ClinicianSummary(rt, VDict([])) == NoSummary;
  }

  /** There is always at least one note; the defaults appear exactly when the summary gives none. */
  lemma NotesNeverEmpty(rt: Runtime, structured: Entries)
    ensures |Notes(rt, structured)| > 0
    ensures var given := GetOr(structured, "notes_for_clinician", VList([]));
      Notes(rt, structured) == Strs(DefaultNotes) <==>
        (if given.VList? then given.items == [] || given.items == Strs(DefaultNotes) else !Truthy(given))
  {
    var given := GetOr(structured, "notes_for_clinician", VList([]));
    assert |Strs(DefaultNotes)| == 3;
    if !given.VList? && Truthy(given) {
      assert |AsList(rt, given)| == 1;
    }
  }

  /** "full_summary" wins over "raw_summary", which wins over the structured impression. */
  lemma SummaryPriority(rt: Runtime, sd: Entries, s: string)
    requires |s| > 0
    ensures GetOr(sd, "full_summary", VStr("")) == VStr(s) ==> FullSummary(rt, VDict(sd)) == s
    ensures !Truthy(GetOr(sd, "full_summary", VStr(""))) && GetOr(sd, "raw_summary", VStr("")) == VStr(s) ==>
      FullSummary(rt, VDict(sd)) == s
  {
  }

  /** A truthy string impression in the structured summary replaces the cleaned text outright. */
  lemma ImpressionWins(rt: Runtime, sd: Entries, structured: Entries, impression: string)
    requires GetOr(sd, "structured", VDict([])) == VDict(structured)
    requires GetOr(structured, "clinical_impression", VNone) == VStr(impression) && |impression| > 0
    ensures ClinicianSummary(rt, VDict(sd)) == Cleaned(impression)
  {
    assert Structured(VDict(sd)) == structured;
    assert |structured| > 0 by {
      assert Lookup(structured, "clinical_impression").Some?;
    }
    assert Str(rt, VStr(impression)) == impression && Truthy(VStr(impression));
  }

  /**
   * The summary shown is the fallback sentence when there is no text at
   * all, and single-spaced cleaned text otherwise.
   */
  lemma SummaryShape(rt: Runtime, summaryData: Value)
    ensures var structured := Structured(summaryData);
      var impression := GetOr(structured, "clinical_impression", VNone);
      |FullSummary(rt, summaryData)| == 0 && !(|structured| > 0 && Truthy(impression)) ==>
        ClinicianSummary(rt, summaryData) == NoSummary
    ensures ClinicianSummary(rt, summaryData) == NoSummary || SingleSpaced(ClinicianSummary(rt, summaryData))
  {
    var structured := Structured(summaryData);
    var impression := GetOr(structured, "clinical_impression", VNone);
    if |structured| > 0 && Truthy(impression) {
      CleanedSingleSpaced(Str(rt, impression));
    } else if |FullSummary(rt, summaryData)| > 0 {
      CleanedSingleSpaced(FullSummary(rt, summaryData));
    }
  }
}
