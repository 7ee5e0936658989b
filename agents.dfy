/**
 * The four pipeline agents. Each one records a reasoning step, retrieves
 * ontology concepts for its category, and fills every output key from the
 * engine's structured reply with a fixed default. The engine's replies are
 * inputs: the model decides only what CLARIFY.MD does with them.
 */
module Agents {
  import opened Wrappers
  import opened Text
  import opened Py
  import opened Ontology
  import opened Engine

  /** One entry of `reasoning_steps`: `{input, reasoning, agent}`. */
  datatype Step = Step(input: string, reasoning: string, agent: string)

  const RiskAgentName := "Risk & Red-Flag Agent"
  const MetaphorAgentName := "Metaphor Translation Agent"
  const EmotionAgentName := "Emotional Biomarker Agent"
  const SynthesisAgentName := "Clinical Synthesis Agent"

  // ---------------------------------------------------------------------
  // Output contracts of `execute`

  /**
   * `{k: result.get(k, d) for k, d in schema}`: each schema key, in schema
   * order, with the reply's value or else the schema's default.
   */
  function Filled(schema: Entries, s: Entries): (r: Entries)
    ensures |r| == |schema|
    ensures forall i | 0 <= i < |schema| :: r[i].0 == schema[i].0
    ensures forall i | 0 <= i < |schema| :: !Has(s, schema[i].0) ==> r[i].1 == schema[i].1
    ensures forall i | 0 <= i < |schema| :: Has(s, schema[i].0) ==> Some(r[i].1) == Lookup(s, schema[i].0)
  {
    seq(|schema|, i requires 0 <= i < |schema| => (schema[i].0, GetOr(s, schema[i].0, schema[i].1)))
  }

  /** A reply that is the schema itself fills in the schema unchanged. */
  lemma FilledBySchema(schema: Entries)
    requires DistinctKeys(schema)
    ensures Filled(schema, schema) == schema
  {
    forall i | 0 <= i < |schema| ensures Filled(schema, schema)[i] == schema[i] {
      LookupAt(schema, i);
    }
  }

  /** The schema the risk agent offers the engine, which is also its fallback. */
  const RiskSchema: Entries :=
    [ ("risk_level", VStr("low")), ("confidence", VStr("medium")), ("red_flags", VList([])),
      ("missing_info", VList([])), ("rationale", VStr("")), ("urgency_score", VNum(0.0)) ]

  /** `RiskAgent.execute`'s result, from the reasoning text, the retrieved concepts and the parsed reply. */
  function RiskOutput(reasoning: string, rag: seq<string>, s: Entries): Entries {
    [ ("reasoning", VStr(reasoning)),
      ("risk_level", GetOr(s, "risk_level", VStr("low"))),
      ("confidence", GetOr(s, "confidence", VStr("medium"))),
      ("red_flags", GetOr(s, "red_flags", VList([]))),
      ("missing_info", GetOr(s, "missing_info", VList([]))),
      ("rationale", GetOr(s, "rationale", VStr(""))),
      ("urgency_score", GetOr(s, "urgency_score", VNum(0.0))),
      ("rag_matches", VList(Strs(rag))) ]
  }

  /** The result is the reasoning, the schema filled from the reply, and the retrieved concepts. */
  lemma RiskOutputFillsSchema(reasoning: string, rag: seq<string>, s: Entries)
    ensures RiskOutput(reasoning, rag, s) ==
      [("reasoning", VStr(reasoning))] + Filled(RiskSchema, s) + [("rag_matches", VList(Strs(rag)))]
  {
  }

  /** When the reply holds no `{ ... }`, every risk field takes its schema default. */
  lemma RiskFallback(rt: Runtime, reasoning: string, rag: seq<string>, reply: string)
    requires !Paired(reply, '{', '}')
    ensures RiskOutput(reasoning, rag, GenerateStructured(rt, reply, RiskSchema)) ==
      [("reasoning", VStr(reasoning))] + RiskSchema + [("rag_matches", VList(Strs(rag)))]
  {
    StructuredFallback(rt, reply, RiskSchema);
    RiskDefaults(reasoning, rag);
  }

  /** The schema given back as the reply reproduces its own defaults. */
  lemma RiskDefaults(reasoning: string, rag: seq<string>)
    ensures RiskOutput(reasoning, rag, RiskSchema) ==
      [("reasoning", VStr(reasoning))] + RiskSchema + [("rag_matches", VList(Strs(rag)))]
  {
    RiskSchemaKeys();
    FilledBySchema(RiskSchema);
    RiskOutputFillsSchema(reasoning, rag, RiskSchema);
  }

  /** When the reply's `{ ... }` window parses, each risk field is the parsed object's value, or its default. */
  lemma RiskFromReply(rt: Runtime, reasoning: string, rag: seq<string>, reply: string)
    requires Bracketed(reply, '{', '}').Some? && rt.loadsObject(Bracketed(reply, '{', '}').value).Some?
    ensures RiskOutput(reasoning, rag, GenerateStructured(rt, reply, RiskSchema)) ==
      [("reasoning", VStr(reasoning))] + Filled(RiskSchema, rt.loadsObject(Bracketed(reply, '{', '}').value).value)
      + [("rag_matches", VList(Strs(rag)))]
  {
    RiskOutputFillsSchema(reasoning, rag, rt.loadsObject(Bracketed(reply, '{', '}').value).value);
  }

  lemma RiskSchemaKeys()
    ensures DistinctKeys(RiskSchema)
  {
  }

  /** `RiskAgent.predict`: the level and the confidence of `execute`. */
  function RiskPredict(out: Entries): (r: Entries)
    ensures Keys(r) == ["risk_level", "confidence"]
  {
    [("risk_level", GetOr(out, "risk_level", VStr("low"))), ("confidence", GetOr(out, "confidence", VStr("medium")))]
  }

  /** `predict` reports the level and confidence `execute` computed from the reply. */
  lemma RiskPredictProjects(reasoning: string, rag: seq<string>, s: Entries)
    ensures RiskPredict(RiskOutput(reasoning, rag, s)) ==
      [("risk_level", GetOr(s, "risk_level", VStr("low"))), ("confidence", GetOr(s, "confidence", VStr("medium")))]
  {
    var out := RiskOutput(reasoning, rag, s);
    LookupAt(out, 1);
    LookupAt(out, 2);
  }

  const MetaphorSchema: Entries :=
    [ ("metaphors", VList([])), ("clinical_translation", VStr("")), ("confidence", VStr("medium")),
      ("uncertainties", VList([])) ]

  /** `MetaphorAgent.execute`'s result. */
  function MetaphorOutput(reasoning: string, rag: seq<string>, s: Entries): Entries {
    [ ("reasoning", VStr(reasoning)),
      ("metaphors", GetOr(s, "metaphors", VList([]))),
      ("clinical_translation", GetOr(s, "clinical_translation", VStr(""))),
      ("confidence", GetOr(s, "confidence", VStr("medium"))),
      ("uncertainties", GetOr(s, "uncertainties", VList([]))),
      ("rag_matches", VList(Strs(rag))) ]
  }

  lemma MetaphorOutputFillsSchema(reasoning: string, rag: seq<string>, s: Entries)
    ensures MetaphorOutput(reasoning, rag, s) ==
      [("reasoning", VStr(reasoning))] + Filled(MetaphorSchema, s) + [("rag_matches", VList(Strs(rag)))]
  {
  }

  /** When the reply's `{ ... }` window parses, each metaphor field is the parsed object's value, or its default. */
  lemma MetaphorFromReply(rt: Runtime, reasoning: string, rag: seq<string>, reply: string)
    requires Bracketed(reply, '{', '}').Some? && rt.loadsObject(Bracketed(reply, '{', '}').value).Some?
    ensures MetaphorOutput(reasoning, rag, GenerateStructured(rt, reply, MetaphorSchema)) ==
      [("reasoning", VStr(reasoning))] + Filled(MetaphorSchema, rt.loadsObject(Bracketed(reply, '{', '}').value).value)
      + [("rag_matches", VList(Strs(rag)))]
  {
    MetaphorOutputFillsSchema(reasoning, rag, rt.loadsObject(Bracketed(reply, '{', '}').value).value);
  }

  /** When the reply holds no `{ ... }`, there are no metaphors and the translation is empty. */
  lemma MetaphorFallback(rt: Runtime, reasoning: string, rag: seq<string>, reply: string)
    requires !Paired(reply, '{', '}')
    ensures MetaphorOutput(reasoning, rag, GenerateStructured(rt, reply, MetaphorSchema)) ==
      [("reasoning", VStr(reasoning))] + MetaphorSchema + [("rag_matches", VList(Strs(rag)))]
  {
    StructuredFallback(rt, reply, MetaphorSchema);
    MetaphorDefaults(reasoning, rag);
  }

  /** The schema given back as the reply reproduces its own defaults. */
  lemma MetaphorDefaults(reasoning: string, rag: seq<string>)
    ensures MetaphorOutput(reasoning, rag, MetaphorSchema) ==
      [("reasoning", VStr(reasoning))] + MetaphorSchema + [("rag_matches", VList(Strs(rag)))]
  {
    MetaphorSchemaKeys();
    FilledBySchema(MetaphorSchema);
    MetaphorOutputFillsSchema(reasoning, rag, MetaphorSchema);
  }

  lemma MetaphorSchemaKeys()
    ensures DistinctKeys(MetaphorSchema)
  {
  }

  /** `MetaphorAgent.translate`: the `clinical_translation` of `execute`, `""` when missing. */
  function MetaphorTranslate(out: Entries): Value {
    GetOr(out, "clinical_translation", VStr(""))
  }

  /** `translate` returns the reply's translation, or `""` when the reply has none. */
  lemma TranslateIsTranslation(reasoning: string, rag: seq<string>, s: Entries)
    ensures MetaphorTranslate(MetaphorOutput(reasoning, rag, s)) == GetOr(s, "clinical_translation", VStr(""))
  {
    LookupAt(MetaphorOutput(reasoning, rag, s), 2);
  }

  // ---------------------------------------------------------------------
  // Emotion agent

  const NoDistress := "No clinically significant emotional distress identified"

  /** `e.get("intensity", 0)` as a number, None when comparing it with a float raises. */
  function Intensity(e: Entries): (r: Option<real>)
    ensures r.Some? <==> AtLeast(GetOr(e, "intensity", VNum(0.0)), 0.0).Success?
  {
    match GetOr(e, "intensity", VNum(0.0))
    case VNum(n) => Some(n)
    case VBool(b) => Some(if b then 1.0 else 0.0)
    case _ => None
  }

  /** The emotion list in the engine's reply: the outermost `[ ... ]` parsed, or nothing. */
  function ParseEmotions(rt: Runtime, reply: string): (r: seq<Value>)
    ensures !Paired(reply, '[', ']') ==> r == []
    ensures var w := Bracketed(reply, '[', ']');
      w.Some? && rt.loadsArray(w.value).Some? ==> r == rt.loadsArray(w.value).value
    ensures var w := Bracketed(reply, '[', ']');
      w.Some? && rt.loadsArray(w.value).None? ==> r == []
  {
    BracketedIffPaired(reply, '[', ']');
    match Bracketed(reply, '[', ']')
    case None => []
    case Some(json) =>
      match rt.loadsArray(json)
      case Some(a) => a
      case None => []
  }

  /** A dict whose intensity is at least 0.4. */
  predicate IsSignificant(e: Value) {
    e.VDict? && Intensity(e.entries).Some? && Intensity(e.entries).value >= 0.4
  }

  /** Every dict has a comparable intensity; otherwise the filter raises TypeError. */
  predicate Comparable(es: seq<Value>) {
    forall i | 0 <= i < |es| :: es[i].VDict? ==> Intensity(es[i].entries).Some?
  }

  /** `[e for e in es if isinstance(e, dict) and e.get("intensity", 0) >= 0.4]`. */
  function Significant(es: seq<Value>): (r: Result<seq<Value>, Error>)
    ensures r.Success? <==> Comparable(es)
    ensures r.Failure? ==> r.error == TypeError
    ensures r.Success? ==> forall i | 0 <= i < |r.value| :: IsSignificant(r.value[i]) && r.value[i] in es
    ensures r.Success? ==> forall e | e in es && IsSignificant(e) :: e in r.value
  {
    if |es| == 0 then Success([])
    else
      var e := es[0];
      assert forall i | 0 <= i < |es[1..]| :: es[1..][i] == es[i + 1];
      if e.VDict? && Intensity(e.entries).None? then Failure(TypeError)
      else
        match Significant(es[1..])
        case Failure(err) => Failure(err)
        case Success(rest) => Success(if IsSignificant(e) then [e] + rest else rest)
  }

  /** The filter distributes over concatenation, so it keeps the reply's order. */
  lemma {:induction false} SignificantConcat(a: seq<Value>, b: seq<Value>)
    requires Comparable(a) && Comparable(b)
    ensures Comparable(a + b)
    ensures Significant(a + b).value == Significant(a).value + Significant(b).value
  {
    ComparableConcat(a, b);
    if |a| == 0 {
      assert a + b == b;
    } else {
      ComparableTail(a);
      assert (a + b)[0] == a[0];
      assert (a + b)[1..] == a[1..] + b;
      SignificantConcat(a[1..], b);
    }
  }

  lemma ComparableConcat(a: seq<Value>, b: seq<Value>)
    requires Comparable(a) && Comparable(b)
    ensures Comparable(a + b)
  {
    forall i | 0 <= i < |a + b| && (a + b)[i].VDict? ensures Intensity((a + b)[i].entries).Some? {
      if i < |a| {
        assert (a + b)[i] == a[i];
      } else {
        assert (a + b)[i] == b[i - |a|];
      }
    }
  }

  lemma ComparableTail(a: seq<Value>)
    requires |a| > 0 && Comparable(a)
    ensures Comparable(a[1..])
  {
    forall i | 0 <= i < |a[1..]| && a[1..][i].VDict? ensures Intensity(a[1..][i].entries).Some? {
      assert a[1..][i] == a[i + 1];
    }
  }

  /** A dict whose intensity is at least 0.7. */
  predicate IsMarked(e: Value) {
    e.VDict? && Intensity(e.entries).Some? && Intensity(e.entries).value >= 0.7
  }

  /** `e.get(k, default)` on an emotion entry, which the filter has already found to be a dict. */
  function Field(e: Value, k: string, default: Value): Value {
    if e.VDict? then GetOr(e.entries, k, default) else default
  }

  /** Index of the first entry with intensity at least 0.7, or -1. */
  function FirstMarked(es: seq<Value>): (k: int)
    ensures -1 <= k < |es|
    ensures k >= 0 ==> IsMarked(es[k])
    ensures forall i | 0 <= i < |es| && (k < 0 || i < k) :: !IsMarked(es[i])
  {
    if |es| == 0 then -1
    else if IsMarked(es[0]) then 0
    else
      var k := FirstMarked(es[1..]);
      assert forall i | 0 < i < |es| :: es[i] == es[1..][i - 1];
      if k < 0 then -1 else k + 1
  }

  /**
   * `_generate_summary` over the significant emotions: none, the first
   * marked one's clinical term, or the names of the first two; the join
   * raises TypeError on a name that is not a string.
   */
  function EmotionSummary(rt: Runtime, es: seq<Value>): (r: Result<string, Error>)
    ensures |es| == 0 ==> r == Success(NoDistress)
    ensures FirstMarked(es) >= 0 ==>
      r == Success("Marked " + Str(rt, Field(es[FirstMarked(es)], "clinical_term", VStr("emotional distress"))) + " detected")
    ensures |es| > 0 && FirstMarked(es) < 0 ==> r == Moderate(es)
  {
    if |es| == 0 then Success(NoDistress)
    else
      var k := FirstMarked(es);
      if k >= 0 then
        Success("Marked " + Str(rt, Field(es[k], "clinical_term", VStr("emotional distress"))) + " detected")
      else
        Moderate(es)
  }

  /**
   * The summary when no emotion is marked: the names of the first two,
   * comma-separated; `join` raises TypeError on a name that is not a string.
   */
  function Moderate(es: seq<Value>): (r: Result<string, Error>)
    ensures r.Success? <==> forall i | 0 <= i < |LeadingNames(es)| :: LeadingNames(es)[i].VStr?
    ensures r.Failure? ==> r.error == TypeError
    ensures r.Success? ==> r.value == "Moderate emotional distress: " + Join(", ", Texts(LeadingNames(es)))
  {
    match JoinStrs(", ", LeadingNames(es))
    case Failure(err) => Failure(err)
    case Success(s) => Success("Moderate emotional distress: " + s)
  }

  /** `[e.get("emotion", "") for e in es[:2]]`. */
  function LeadingNames(es: seq<Value>): (r: seq<Value>)
    ensures |r| == if |es| < 2 then |es| else 2
    ensures forall i | 0 <= i < |r| :: r[i] == Field(es[i], "emotion", VStr(""))
  {
    var first := SliceTo(es, 2);
    seq(|first|, i requires 0 <= i < |first| => Field(first[i], "emotion", VStr("")))
  }

  /** With no marked emotion, the summary names the first two emotions, comma-separated. */
  lemma EmotionSummaryModerate(rt: Runtime, es: seq<Value>, a: string, b: string)
    requires |es| >= 2 && FirstMarked(es) < 0
    requires Field(es[0], "emotion", VStr("")) == VStr(a) && Field(es[1], "emotion", VStr("")) == VStr(b)
    ensures EmotionSummary(rt, es) == Success("Moderate emotional distress: " + (a + ", " + b))
  {
    LeadingTwo(es, a, b);
    JoinTwo(LeadingNames(es), a, b);
    assert Moderate(es) == Success("Moderate emotional distress: " + (a + ", " + b));
  }

  /** A single unmarked emotion is named on its own. */
  lemma EmotionSummaryOne(rt: Runtime, es: seq<Value>, a: string)
    requires |es| == 1 && FirstMarked(es) < 0
    requires Field(es[0], "emotion", VStr("")) == VStr(a)
    ensures EmotionSummary(rt, es) == Success("Moderate emotional distress: " + a)
  {
    assert LeadingNames(es) == [VStr(a)];
    JoinOne(LeadingNames(es), a);
    assert Moderate(es) == Success("Moderate emotional distress: " + a);
  }

  /** With no marked emotion, a leading name that is not a string makes the summary raise TypeError. */
  lemma EmotionSummaryNameError(rt: Runtime, es: seq<Value>, i: int)
    requires |es| > 0 && FirstMarked(es) < 0
    requires 0 <= i < 2 && i < |es| && !Field(es[i], "emotion", VStr("")).VStr?
    ensures EmotionSummary(rt, es) == Failure(TypeError)
  {
    assert !LeadingNames(es)[i].VStr?;
  }

  lemma LeadingTwo(es: seq<Value>, a: string, b: string)
    requires |es| >= 2
    requires Field(es[0], "emotion", VStr("")) == VStr(a) && Field(es[1], "emotion", VStr("")) == VStr(b)
    ensures LeadingNames(es) == [VStr(a), VStr(b)]
  {
  }

  lemma JoinOne(names: seq<Value>, a: string)
    requires names == [VStr(a)]
    ensures JoinStrs(", ", names) == Success(a)
  {
    assert Texts(names) == [a];
  }

  lemma JoinTwo(names: seq<Value>, a: string, b: string)
    requires names == [VStr(a), VStr(b)]
    ensures JoinStrs(", ", names) == Success(a + ", " + b)
  {
    assert Texts(names) == [a, b];
    assert [a, b][1..] == [b];
    assert Join(", ", [a, b]) == a + ", " + b;
  }

  /** `EmotionAgent.execute`'s result. */
  function EmotionOutput(rt: Runtime, reasoning: string, rag: seq<string>, reply: string): (r: Result<Entries, Error>)
    ensures r.Success? <==>
      (Significant(ParseEmotions(rt, reply)).Success?
       && EmotionSummary(rt, Significant(ParseEmotions(rt, reply)).value).Success?)
  {
    var all := ParseEmotions(rt, reply);
    var significant :- Significant(all);
    var summary :- EmotionSummary(rt, significant);
    Success(EmotionRecord(reasoning, significant, all, rag, summary))
  }

  /** The dict `execute` returns once the filter and the summary have succeeded. */
  function EmotionRecord(reasoning: string, significant: seq<Value>, all: seq<Value>, rag: seq<string>, summary: string): Entries {
    [ ("reasoning", VStr(reasoning)), ("emotions", VList(significant)), ("all_emotions", VList(all)),
      ("rag_matches", VList(Strs(rag))), ("summary", VStr(summary)) ]
  }

  /** When the reply's `[ ... ]` window parses, the emotions kept are the significant entries of that array. */
  lemma EmotionFromReply(rt: Runtime, reasoning: string, rag: seq<string>, reply: string)
    requires Bracketed(reply, '[', ']').Some? && rt.loadsArray(Bracketed(reply, '[', ']').value).Some?
    ensures var a := rt.loadsArray(Bracketed(reply, '[', ']').value).value;
      && (EmotionOutput(rt, reasoning, rag, reply).Success? <==>
            Significant(a).Success? && EmotionSummary(rt, Significant(a).value).Success?)
      && (EmotionOutput(rt, reasoning, rag, reply).Success? ==>
            EmotionOutput(rt, reasoning, rag, reply).value ==
              EmotionRecord(reasoning, Significant(a).value, a, rag, EmotionSummary(rt, Significant(a).value).value))
  {
  }

  /** With no `[ ... ]` in the reply, there are no emotions and the summary says so. */
  lemma EmotionFallback(rt: Runtime, reasoning: string, rag: seq<string>, reply: string)
    requires !Paired(reply, '[', ']')
    ensures EmotionOutput(rt, reasoning, rag, reply) == Success(EmotionRecord(reasoning, [], [], rag, NoDistress))
  {
  }

  /** `EmotionAgent.predict`: the significant emotions. */
  function EmotionPredict(out: Entries): Value {
    GetOr(out, "emotions", VList([]))
  }

  lemma EmotionPredictIsSignificant(rt: Runtime, reasoning: string, rag: seq<string>, reply: string)
    requires EmotionOutput(rt, reasoning, rag, reply).Success?
    ensures EmotionPredict(EmotionOutput(rt, reasoning, rag, reply).value) ==
      VList(Significant(ParseEmotions(rt, reply)).value)
  {
    var all := ParseEmotions(rt, reply);
    var significant := Significant(all).value;
    var out := EmotionRecord(reasoning, significant, all, rag, EmotionSummary(rt, significant).value);
    assert EmotionOutput(rt, reasoning, rag, reply).value == out;
    LookupAt(out, 1);
  }

  // ---------------------------------------------------------------------
  // Synthesis agent

  const SynthesisSchema: Entries :=
    [ ("presenting_description", VStr("")), ("symptom_interpretation", VStr("")), ("emotional_state", VStr("")),
      ("risk_assessment", VStr("")), ("clinical_impression", VStr("")), ("uncertainties", VList([])),
      ("notes_for_clinician", VList([])) ]

  /** `SynthesisAgent.execute`'s result: the summary text twice, and its structured parse. */
  function SynthesisOutput(reasoning: string, summary: string, structured: Entries): (r: Entries)
    ensures Keys(r) == ["reasoning", "full_summary", "structured", "raw_summary"]
    ensures GetOr(r, "full_summary", VNone) == GetOr(r, "raw_summary", VNone) == VStr(summary)
  {
    var r := [ ("reasoning", VStr(reasoning)), ("full_summary", VStr(summary)), ("structured", VDict(structured)),
               ("raw_summary", VStr(summary)) ];
    LookupAt(r, 1);
    LookupAt(r, 3);
    assert Keys(r) == ["reasoning", "full_summary", "structured", "raw_summary"];
    r
  }

  /** The context the legacy `generate` hands to `execute`. */
  function LegacyContext(context: Value): (r: Value)
    ensures !context.VStr? ==> r == context
    ensures context.VStr? ==> r.VDict? && Keys(r.entries) == ["patient_text", "metaphor", "emotions", "risk"]
  {
    if context.VStr? then
      var d := [ ("patient_text", context), ("metaphor", VStr("")), ("emotions", VList([])),
                 ("risk", VDict([("risk_level", VStr("unknown"))])) ];
      assert Keys(d) == ["patient_text", "metaphor", "emotions", "risk"];
      VDict(d)
    else context
  }

  // ---------------------------------------------------------------------
  // The agent object

  /** `BaseAgent`: a name, the ontology, and the reasoning steps recorded so far. */
  class Agent {
    const name: string
    const ontology: Ontology
    var reasoningSteps: seq<Step>

    constructor (name: string)
      ensures this.name == name && ontology == MedicalOntology() && reasoningSteps == []
    {
      this.name := name;
      this.ontology := MedicalOntology();
      this.reasoningSteps := [];
    }

    /** `reason`: records one step and returns `{reasoning, agent}`. */
    method Reason(input: string, reply: string) returns (r: Entries)
      modifies this
      ensures reasoningSteps == old(reasoningSteps) + [Step(input, reply, name)]
      ensures r == [("reasoning", VStr(reply)), ("agent", VStr(name))]
    {
      reasoningSteps := reasoningSteps + [Step(input, reply, name)];
      r := [("reasoning", VStr(reply)), ("agent", VStr(name))];
    }

    /** `use_rag`: the first five concepts retrieved for the coerced, lower-cased query. */
    method UseRag(rt: Runtime, query: Value, category: string) returns (r: seq<string>)
      ensures r == Retrieve(ontology, category, RagQuery(rt, query), 5)
    {
      var q := if query.VStr? then query.s else StrIfTruthy(rt, query);
      var queryLower := Lower(q);
      var matches: seq<string> := [];
      var table := Category(ontology, category);
      if table.Some? {
        var t := table.value;
        var i := 0;
        while i < |t|
          invariant 0 <= i <= |t|
          invariant matches == Matches(t[..i], queryLower)
        {
          assert t[..i + 1][..i] == t[..i];
          if KeyMatches(t[i].0, queryLower) {
            matches := matches + t[i].1;
          }
          i := i + 1;
        }
        assert t[..|t|] == t;
      }
      r := SliceTo(matches, 5);
    }

    method ExecuteRisk(rt: Runtime, input: string, reasoningReply: string, reply: string) returns (out: Entries)
      modifies this
      ensures reasoningSteps == old(reasoningSteps) + [Step(input, reasoningReply, name)]
      ensures out == RiskOutput(reasoningReply, Retrieve(ontology, "risk_indicators", Lower(input), 5),
        GenerateStructured(rt, reply, RiskSchema))
    {
      var reasoning := Reason(input, reasoningReply);
      var rag := UseRag(rt, VStr(input), "risk_indicators");
      var result := GenerateStructured(rt, reply, RiskSchema);
      out := RiskOutput(GetOr(reasoning, "reasoning", VStr("")).s, rag, result);
    }

    method ExecuteMetaphor(rt: Runtime, input: string, reasoningReply: string, reply: string) returns (out: Entries)
      modifies this
      ensures reasoningSteps == old(reasoningSteps) + [Step(input, reasoningReply, name)]
      ensures out == MetaphorOutput(reasoningReply, Retrieve(ontology, "metaphors", Lower(input), 5),
        GenerateStructured(rt, reply, MetaphorSchema))
    {
      var reasoning := Reason(input, reasoningReply);
      var rag := UseRag(rt, VStr(input), "metaphors");
      var result := GenerateStructured(rt, reply, MetaphorSchema);
      out := MetaphorOutput(GetOr(reasoning, "reasoning", VStr("")).s, rag, result);
    }

    /** The reasoning step is recorded even when the intensity filter then raises. */
    method ExecuteEmotion(rt: Runtime, input: string, reasoningReply: string, reply: string)
      returns (out: Result<Entries, Error>)
      modifies this
      ensures reasoningSteps == old(reasoningSteps) + [Step(input, reasoningReply, name)]
      ensures out == EmotionOutput(rt, reasoningReply, Retrieve(ontology, "emotional_biomarkers", Lower(input), 5), reply)
    {
      var reasoning := Reason(input, reasoningReply);
      var rag := UseRag(rt, VStr(input), "emotional_biomarkers");
      out := EmotionOutput(rt, GetOr(reasoning, "reasoning", VStr("")).s, rag, reply);
    }

    /** The reasoning step records the JSON text of the context. */
    method ExecuteSynthesis(rt: Runtime, context: Value, reasoningReply: string, summaryReply: string, reply: string)
      returns (out: Entries)
      modifies this
      ensures reasoningSteps == old(reasoningSteps) + [Step(rt.dumps(context), reasoningReply, name)]
      ensures out == SynthesisOutput(reasoningReply, summaryReply, GenerateStructured(rt, reply, SynthesisSchema))
    {
      var reasoning := Reason(rt.dumps(context), reasoningReply);
      var structured := GenerateStructured(rt, reply, SynthesisSchema);
      out := SynthesisOutput(GetOr(reasoning, "reasoning", VStr("")).s, summaryReply, structured);
    }

    /** Legacy `SynthesisAgent.generate`: wraps a bare string into a context and returns the summary text. */
    method LegacyGenerate(rt: Runtime, context: Value, reasoningReply: string, summaryReply: string, reply: string)
      returns (summary: Value)
      modifies this
      ensures reasoningSteps == old(reasoningSteps) + [Step(rt.dumps(LegacyContext(context)), reasoningReply, name)]
      ensures summary == VStr(summaryReply)
    {
      var result := ExecuteSynthesis(rt, LegacyContext(context), reasoningReply, summaryReply, reply);
      summary := GetOr(result, "full_summary", GetOr(result, "raw_summary", VStr("")));
    }
  }
}
