/**
 * `AgenticOrchestrator` (orchestrator_v2.py): the metaphor, emotion and
 * risk agents run in that order, the deterministic override rewrites the
 * risk result, a synthesis context is built from the overridden risk, the
 * synthesis agent runs, and the fixed-key result passes through the safety
 * guardrails last. The engine's replies are inputs to a run.
 */
module Orchestrator {
  import opened Wrappers
  import opened Text
  import opened Py
  import opened Ontology
  import opened Engine
  import opened Agents
  import opened RiskOverride
  import opened Guardrails

  /** What the engine answers during one run, in the order the agents ask. */
  datatype Replies = Replies(
    metaphorReasoning: string, metaphorReply: string,
    emotionReasoning: string, emotionReply: string,
    riskReasoning: string, riskReply: string,
    synthesisReasoning: string, summaryReply: string, synthesisReply: string)

  // ---------------------------------------------------------------------
  // The three first agents' results (lines 153-155)

  function MetaphorResult(rt: Runtime, o: Ontology, patientText: string, rp: Replies): Entries {
    MetaphorOutput(rp.metaphorReasoning, Retrieve(o, "metaphors", Lower(patientText), 5),
      GenerateStructured(rt, rp.metaphorReply, MetaphorSchema))
  }

  function EmotionResult(rt: Runtime, o: Ontology, patientText: string, rp: Replies): Result<Entries, Error> {
    EmotionOutput(rt, rp.emotionReasoning, Retrieve(o, "emotional_biomarkers", Lower(patientText), 5),
      rp.emotionReply)
  }

  function RiskResult(rt: Runtime, o: Ontology, patientText: string, rp: Replies): Entries {
    RiskOutput(rp.riskReasoning, Retrieve(o, "risk_indicators", Lower(patientText), 5),
      GenerateStructured(rt, rp.riskReply, RiskSchema))
  }

  // ---------------------------------------------------------------------
  // The synthesis context (lines 168-188)

  /** `len(v)`: the length of a list, string or dict; other values raise TypeError. */
  function Len(v: Value): (r: Result<int, Error>)
    ensures v.VList? ==> r == Success(|v.items|)
    ensures r.Success? ==> r.value >= 0
  {
    match v
    case VList(items) => Success(|items|)
    case VStr(s) => Success(|s|)
    case VDict(d) => Success(|d|)
    case _ => Failure(TypeError)
  }

  /** Lines 182-188: the five risk fields the synthesis agent sees. */
  function RiskContext(risk: Entries): (r: Entries)
    ensures Keys(r) == ["risk_level", "confidence", "red_flags", "missing_info", "rationale"]
  {
    var r := [ ("risk_level", GetOr(risk, "risk_level", VStr("low"))),
               ("confidence", GetOr(risk, "confidence", VStr("medium"))),
               ("red_flags", GetOr(risk, "red_flags", VList([]))),
               ("missing_info", GetOr(risk, "missing_info", VList([]))),
               ("rationale", GetOr(risk, "rationale", VStr(""))) ];
    assert Keys(r) == ["risk_level", "confidence", "red_flags", "missing_info", "rationale"];
    r
  }

  const ContextKeys: seq<string> := ["patient_text", "metaphor", "emotion", "risk"]

  /** Lines 168-189: the context's four parts. */
  function ContextDict(patientText: string, metaphor: Entries, emotion: Entries, risk: Entries): (r: Entries)
    ensures Keys(r) == ContextKeys
  {
    var r := [("patient_text", VStr(patientText)), ("metaphor", VDict(metaphor)), ("emotion", VDict(emotion)),
              ("risk", VDict(risk))];
    assert Keys(r) == ContextKeys;
    r
  }

  /** Lines 170-180: the metaphor and emotion parts. */
  function MetaphorContext(metaphor: Entries): Entries {
    [ ("translation", GetOr(metaphor, "clinical_translation", VStr(""))),
      ("metaphors", GetOr(metaphor, "metaphors", VList([]))),
      ("confidence", GetOr(metaphor, "confidence", VStr("medium"))),
      ("uncertainties", GetOr(metaphor, "uncertainties", VList([]))) ]
  }

  function EmotionContext(emotion: Entries, count: int): Entries {
    [ ("emotions", GetOr(emotion, "emotions", VList([]))),
      ("summary", GetOr(emotion, "summary", VStr(""))),
      ("significant_count", VNum(count as real)) ]
  }

  /** The context handed to the synthesis agent; `len` of the emotions may raise. */
  function SynthesisContext(patientText: string, metaphor: Entries, emotion: Entries, risk: Entries): (r: Result<Value, Error>)
    ensures r.Success? <==> Len(GetOr(emotion, "emotions", VList([]))).Success?
    ensures r.Success? ==> r.value == VDict(ContextDict(patientText, MetaphorContext(metaphor),
      EmotionContext(emotion, Len(GetOr(emotion, "emotions", VList([]))).value), RiskContext(risk)))
  {
    var count :- Len(GetOr(emotion, "emotions", VList([])));
    Success(VDict(ContextDict(patientText, MetaphorContext(metaphor), EmotionContext(emotion, count), RiskContext(risk))))
  }

  /** The risk part of a synthesis context. */
  function ContextRisk(context: Value): Value {
    if context.VDict? then GetOr(context.entries, "risk", VNone) else VNone
  }

  lemma ContextKeysUnique()
    ensures Unique(ContextKeys)
  {
  }

  lemma RiskContextKeysUnique()
    ensures Unique(["risk_level", "confidence", "red_flags", "missing_info", "rationale"])
  {
  }

  /** The risk part of the context is the five-field projection of the risk it was built from. */
  lemma ContextRiskIs(patientText: string, metaphor: Entries, emotion: Entries, risk: Entries)
    ensures ContextRisk(VDict(ContextDict(patientText, metaphor, emotion, risk))) == VDict(risk)
  {
    ContextKeysUnique();
    LookupUnique(ContextDict(patientText, metaphor, emotion, risk), 3);
  }

  /** Each of the five risk fields the synthesis agent sees is the risk's own value for that key. */
  lemma RiskContextReads(risk: Entries, k: string)
    requires k in Keys(RiskContext(risk))
    ensures Has(risk, k) ==> Lookup(RiskContext(risk), k) == Lookup(risk, k)
  {
    var rc := RiskContext(risk);
    var i :| 0 <= i < |rc| && Keys(rc)[i] == k;
    RiskContextKeysUnique();
    LookupUnique(rc, i);
  }

  /**
   * The synthesis agent sees the overridden risk: its context's risk part
   * holds, for each of the five keys, the value the given risk dict holds.
   */
  lemma ContextReadsRisk(patientText: string, metaphor: Entries, emotion: Entries, risk: Entries, k: string)
    requires SynthesisContext(patientText, metaphor, emotion, risk).Success?
    requires k in Keys(RiskContext(risk)) && Has(risk, k)
    ensures var c := ContextRisk(SynthesisContext(patientText, metaphor, emotion, risk).value);
      c.VDict? && Lookup(c.entries, k) == Lookup(risk, k)
  {
    var count := Len(GetOr(emotion, "emotions", VList([]))).value;
    ContextRiskIs(patientText, MetaphorContext(metaphor), EmotionContext(emotion, count), RiskContext(risk));
    RiskContextReads(risk, k);
  }

  // ---------------------------------------------------------------------
  // The result dict (lines 193-225)

  /** `extract_reasoning`: a dict gives its "reasoning" (else `str` of it), a string itself, anything else `str(v) if v else ""`. */
  function ExtractReasoning(rt: Runtime, v: Value): (r: Value)
    ensures v.VStr? ==> r == v
    ensures !v.VDict? ==> r.VStr?
    ensures !v.VDict? && !Truthy(v) ==> r == VStr("")
  {
    match v
    case VDict(d) => GetOr(d, "reasoning", VStr(Str(rt, v)))
    case VStr(_) => v
    case _ => VStr(StrIfTruthy(rt, v))
  }

  /** Lines 219-224: the fixed processing metadata. */
  const Metadata: Entries := [
    ("agents_used", VNum(4.0)), ("rag_enabled", VBool(true)),
    ("collaboration_enabled", VBool(true)), ("deterministic_risk_overrides", VBool(true))]

  const ResultKeys: seq<string> :=
    ["patient_voice", "metaphor", "emotions", "risk", "summary", "agent_reasoning", "processing_metadata"]

  /** Lines 193-225: the result before the guardrails. */
  function Assembled(rt: Runtime, patientText: string, metaphor: Entries, emotion: Entries, risk: Entries, synthesis: Entries): (r: Entries)
    ensures Keys(r) == ResultKeys
  {
    var r := [
      ("patient_voice", VStr(patientText)),
      ("metaphor", VDict(metaphor)),
      ("emotions", VDict(emotion)),
      ("risk", VDict(risk)),
      ("summary", VDict(synthesis)),
      ("agent_reasoning", VDict([
        ("metaphor", ExtractReasoning(rt, GetOr(metaphor, "reasoning", VStr("")))),
        ("emotion", ExtractReasoning(rt, GetOr(emotion, "reasoning", VStr("")))),
        ("risk", ExtractReasoning(rt, GetOr(risk, "reasoning", VStr("")))),
        ("synthesis", ExtractReasoning(rt, GetOr(synthesis, "reasoning", VStr(""))))])),
      ("processing_metadata", VDict(Metadata))];
    assert Keys(r) == ResultKeys;
    r
  }

  /** The synthesis agent's result. */
  function SynthesisResult(rt: Runtime, rp: Replies): Entries {
    SynthesisOutput(rp.synthesisReasoning, rp.summaryReply, GenerateStructured(rt, rp.synthesisReply, SynthesisSchema))
  }

  // ---------------------------------------------------------------------
  // One run (lines 137-229)

  /** What the agents and the override hand on to the rest of a run. */
  datatype AgentOutputs = AgentOutputs(metaphor: Entries, emotion: Result<Entries, Error>, risk: Outcome, synthesis: Entries)

  /** The agents' outputs for one narrative; the override works on the risk agent's result. */
  function Outputs(rt: Runtime, o: Ontology, patientText: string, rp: Replies): AgentOutputs {
    AgentOutputs(MetaphorResult(rt, o, patientText, rp), EmotionResult(rt, o, patientText, rp),
      Override(rt, FiredFor(patientText), RiskResult(rt, o, patientText, rp)), SynthesisResult(rt, rp))
  }

  /**
   * The result before the guardrails, or the exception that ends the run
   * first: the emotion agent's, then the override's, then `len` of the
   * emotions while the context is built.
   */
  function Unguarded(rt: Runtime, patientText: string, out: AgentOutputs): (r: Result<Entries, Error>)
    ensures r.Success? <==>
      && out.emotion.Success? && out.risk.error.None?
      && Len(GetOr(out.emotion.value, "emotions", VList([]))).Success?
    ensures out.emotion.Failure? ==> r == Failure(out.emotion.error)
    ensures out.emotion.Success? && out.risk.error.Some? ==> r == Failure(out.risk.error.value)
    ensures r.Success? ==> r.value == Assembled(rt, patientText, out.metaphor, out.emotion.value, out.risk.state, out.synthesis)
  {
    var emotion :- out.emotion;
    var risk :- if out.risk.error.Some? then Failure(out.risk.error.value) else Success(out.risk.state);
    var _ :- SynthesisContext(patientText, out.metaphor, emotion, risk);
    Success(Assembled(rt, patientText, out.metaphor, emotion, risk, out.synthesis))
  }

  /** The run's outcome once the agents have answered: the guarded result, or the exception raised. */
  function Finish(rt: Runtime, patientText: string, out: AgentOutputs): (r: Result<Entries, Error>)
    ensures Unguarded(rt, patientText, out).Failure? ==> r == Failure(Unguarded(rt, patientText, out).error)
    ensures r.Success? ==>
      && Unguarded(rt, patientText, out).Success?
      && Guard(rt, Unguarded(rt, patientText, out).value).error.None?
      && r.value == Guard(rt, Unguarded(rt, patientText, out).value).state
  {
    var result :- Unguarded(rt, patientText, out);
    var o := Guard(rt, result);
    if o.error.Some? then Failure(o.error.value) else Success(o.state)
  }

  /** `run_clarify(patient_text)`: the returned result, or the exception raised. */
  function Clarify(rt: Runtime, o: Ontology, patientText: string, rp: Replies): Result<Entries, Error> {
    Finish(rt, patientText, Outputs(rt, o, patientText, rp))
  }

  // ---------------------------------------------------------------------
  // What run_clarify promises, whatever the agents answered

  lemma ResultKeysUnique()
    ensures Unique(ResultKeys)
  {
  }

  /** The guardrails rewrite only the summary among the assembled keys. */
  lemma NotGuardKey(i: int)
    requires 0 <= i < |ResultKeys| && i != 4
    ensures ResultKeys[i] !in {"summary", "safety_violations", "notes", "uncertainties"}
  {
  }

  /** The guardrails keep every key of an assembled result, and the value of every key but the summary. */
  lemma GuardedAssembled(rt: Runtime, a: Entries)
    requires Keys(a) == ResultKeys
    ensures forall i | 0 <= i < |a| :: Has(Guard(rt, a).state, ResultKeys[i])
    ensures forall i | 0 <= i < |a| && i != 4 :: Lookup(Guard(rt, a).state, ResultKeys[i]) == Some(a[i].1)
  {
    ResultKeysUnique();
    forall i | 0 <= i < |a| ensures Has(Guard(rt, a).state, ResultKeys[i]) {
      LookupUnique(a, i);
      if i == 4 {
        GuardKeepsSummary(rt, a);
      } else {
        NotGuardKey(i);
        GuardKeepsOthers(rt, a, ResultKeys[i]);
      }
    }
    forall i | 0 <= i < |a| && i != 4 ensures Lookup(Guard(rt, a).state, ResultKeys[i]) == Some(a[i].1) {
      LookupUnique(a, i);
      NotGuardKey(i);
      GuardKeepsOthers(rt, a, ResultKeys[i]);
    }
  }

  /** The summary the guardrails leave behind is still present. */
  lemma GuardKeepsSummary(rt: Runtime, u: Entries)
    requires Has(u, "summary")
    ensures Has(Guard(rt, u).state, "summary")
  {
    var v := Validated(rt, u);
    if |Violations(rt, u)| > 0 {
      StoreLookup(Store(u, "safety_violations", VList(Strs(Violations(rt, u)))),
        "summary", SanitizedSummary(rt, GetOr(u, "summary", VStr(""))), "summary");
    }
    AddDisclaimersKeepsOthers(v, "summary");
    var a := AddDisclaimers(v);
    if a.error.None? {
      EnforceKeepsOthers(rt, a.state, "summary");
    }
  }

  lemma ResultKeyNames()
    ensures ResultKeys[0] == "patient_voice" && ResultKeys[1] == "metaphor" && ResultKeys[2] == "emotions"
    ensures ResultKeys[3] == "risk" && ResultKeys[6] == "processing_metadata"
  {
  }

  /**
   * Every assembled key is in the returned result, and every one but the
   * summary keeps the value the pipeline placed there: the narrative as
   * the patient voice, the agents' dicts, the overridden risk, the
   * reasoning and the constant metadata.
   */
  lemma FinishKeepsAssembled(rt: Runtime, patientText: string, out: AgentOutputs)
    requires Finish(rt, patientText, out).Success?
    ensures var r := Finish(rt, patientText, out).value;
      && (forall k | k in ResultKeys :: Has(r, k))
      && Lookup(r, "patient_voice") == Some(VStr(patientText))
      && Lookup(r, "metaphor") == Some(VDict(out.metaphor))
      && Lookup(r, "emotions") == Some(VDict(out.emotion.value))
      && Lookup(r, "risk") == Some(VDict(out.risk.state))
      && Lookup(r, "processing_metadata") == Some(VDict(Metadata))
  {
    var u := Unguarded(rt, patientText, out).value;
    GuardedAssembled(rt, u);
    ResultKeyNames();
    forall k | k in ResultKeys ensures Has(Finish(rt, patientText, out).value, k) {
      var i :| 0 <= i < |ResultKeys| && ResultKeys[i] == k;
    }
  }

  /**
   * Once a trigger has fired and the override has succeeded, the returned
   * risk level contains "high" and the urgency is at least 0.8, whatever
   * the risk agent answered.
   */
  lemma FinishEscalates(rt: Runtime, patientText: string, out: AgentOutputs, fired: seq<string>, raw: Entries)
    requires Finish(rt, patientText, out).Success?
    requires out.risk == Override(rt, fired, raw) && |fired| > 0
    ensures var risk := GetOr(Finish(rt, patientText, out).value, "risk", VNone);
      && risk.VDict?
      && GetOr(risk.entries, "risk_level", VNone).VStr?
      && Contains(GetOr(risk.entries, "risk_level", VNone).s, "high")
      && GetOr(risk.entries, "urgency_score", VNone).VNum?
      && GetOr(risk.entries, "urgency_score", VNone).n >= 0.8
  {
    OverrideFields(rt, fired, raw, "risk_level");
    EscalatesToHigh(Read(rt, raw).value, fired);
    UrgencyRaised(Read(rt, raw).value, fired);
    FinishKeepsAssembled(rt, patientText, out);
  }

  /**
   * A trigger phrase in the narrative reaches the returned result: its risk
   * level contains "high" and its urgency is at least 0.8.
   */
  lemma ClarifyEscalates(rt: Runtime, o: Ontology, patientText: string, rp: Replies)
    requires Clarify(rt, o, patientText, rp).Success?
    requires exists i | 0 <= i < |Triggers| :: Contains(Lower(patientText), Triggers[i].0)
    ensures var risk := GetOr(Clarify(rt, o, patientText, rp).value, "risk", VNone);
      && risk.VDict?
      && GetOr(risk.entries, "risk_level", VNone).VStr?
      && Contains(GetOr(risk.entries, "risk_level", VNone).s, "high")
      && GetOr(risk.entries, "urgency_score", VNone).VNum?
      && GetOr(risk.entries, "urgency_score", VNone).n >= 0.8
  {
    FiresIffPhrase(patientText);
    FinishEscalates(rt, patientText, Outputs(rt, o, patientText, rp), FiredFor(patientText), RiskResult(rt, o, patientText, rp));
  }

  // ---------------------------------------------------------------------
  // The orchestrator object

  /** `AgenticOrchestrator`: the four pipeline agents, each recording its own reasoning steps. */
  class AgenticOrchestrator {
    const metaphorAgent: Agent
    const emotionAgent: Agent
    const riskAgent: Agent
    const synthesisAgent: Agent

    /** Four distinct agents over one shared ontology. */
    ghost predicate Valid() {
      && metaphorAgent != emotionAgent && metaphorAgent != riskAgent && metaphorAgent != synthesisAgent
      && emotionAgent != riskAgent && emotionAgent != synthesisAgent && riskAgent != synthesisAgent
      && emotionAgent.ontology == metaphorAgent.ontology && riskAgent.ontology == metaphorAgent.ontology
      && synthesisAgent.ontology == metaphorAgent.ontology
      && metaphorAgent.name == MetaphorAgentName && emotionAgent.name == EmotionAgentName
      && riskAgent.name == RiskAgentName && synthesisAgent.name == SynthesisAgentName
    }

    constructor ()
      ensures Valid() && metaphorAgent.ontology == MedicalOntology()
      ensures metaphorAgent.reasoningSteps == [] && emotionAgent.reasoningSteps == []
      ensures riskAgent.reasoningSteps == [] && synthesisAgent.reasoningSteps == []
    {
      metaphorAgent := new Agent(MetaphorAgentName);
      emotionAgent := new Agent(EmotionAgentName);
      riskAgent := new Agent(RiskAgentName);
      synthesisAgent := new Agent(SynthesisAgentName);
    }

    /**
     * `run_clarify(patient_text)`. Each agent that runs records one
     * reasoning step; the synthesis agent's step records the context built
     * from the overridden risk.
     */
    method RunClarify(rt: Runtime, patientText: string, rp: Replies) returns (r: Result<Entries, Error>)
      requires Valid()
      modifies metaphorAgent, emotionAgent, riskAgent, synthesisAgent
      ensures Valid()
      ensures r == Clarify(rt, metaphorAgent.ontology, patientText, rp)
      ensures metaphorAgent.reasoningSteps ==
        old(metaphorAgent.reasoningSteps) + [Step(patientText, rp.metaphorReasoning, MetaphorAgentName)]
      ensures emotionAgent.reasoningSteps ==
        old(emotionAgent.reasoningSteps) + [Step(patientText, rp.emotionReasoning, EmotionAgentName)]
      ensures var out := Outputs(rt, metaphorAgent.ontology, patientText, rp);
        riskAgent.reasoningSteps == old(riskAgent.reasoningSteps) +
          if out.emotion.Success? then [Step(patientText, rp.riskReasoning, RiskAgentName)] else []
      ensures var out := Outputs(rt, metaphorAgent.ontology, patientText, rp);
        Unguarded(rt, patientText, out).Success? ==>
          var context := SynthesisContext(patientText, out.metaphor, out.emotion.value, out.risk.state).value;
          synthesisAgent.reasoningSteps == old(synthesisAgent.reasoningSteps) +
            [Step(rt.dumps(context), rp.synthesisReasoning, SynthesisAgentName)]
      ensures Unguarded(rt, patientText, Outputs(rt, metaphorAgent.ontology, patientText, rp)).Failure? ==>
        synthesisAgent.reasoningSteps == old(synthesisAgent.reasoningSteps)
    {
      ghost var out := Outputs(rt, metaphorAgent.ontology, patientText, rp);
      var metaphor := metaphorAgent.ExecuteMetaphor(rt, patientText, rp.metaphorReasoning, rp.metaphorReply);
      var emotion := emotionAgent.ExecuteEmotion(rt, patientText, rp.emotionReasoning, rp.emotionReply);
      if emotion.Failure? {
        return Failure(emotion.error);
      }
      var risk, overrideError := AssessRisk(rt, patientText, rp);
      if overrideError.Some? {
        return Failure(overrideError.value);
      }
      r := Conclude(rt, patientText, metaphor, emotion.value, risk, rp, out);
    }

    /** Lines 155-165: the risk agent, then the deterministic override of its result. */
    method AssessRisk(rt: Runtime, patientText: string, rp: Replies) returns (risk: Entries, error: Option<Error>)
      modifies riskAgent
      ensures Outcome(risk, error) ==
        Override(rt, FiredFor(patientText), RiskResult(rt, riskAgent.ontology, patientText, rp))
      ensures riskAgent.reasoningSteps == old(riskAgent.reasoningSteps) + [Step(patientText, rp.riskReasoning, riskAgent.name)]
    {
      var riskOut := riskAgent.ExecuteRisk(rt, patientText, rp.riskReasoning, rp.riskReply);
      var d := new Dict(riskOut);
      error := ApplyOverride(rt, patientText, d);
      risk := d.entries;
    }

    /**
     * Lines 168-229, once the risk is overridden: the context, the
     * synthesis agent, the result dict and the guardrails.
     */
    method Conclude(rt: Runtime, patientText: string, metaphor: Entries, emotion: Entries, risk: Entries, rp: Replies,
                    ghost out: AgentOutputs)
      returns (r: Result<Entries, Error>)
      requires out == AgentOutputs(metaphor, Success(emotion), Outcome(risk, None), SynthesisResult(rt, rp))
      modifies synthesisAgent
      ensures r == Finish(rt, patientText, out)
      ensures var context := SynthesisContext(patientText, metaphor, emotion, risk);
        synthesisAgent.reasoningSteps == old(synthesisAgent.reasoningSteps) +
          if context.Success? then [Step(rt.dumps(context.value), rp.synthesisReasoning, synthesisAgent.name)] else []
    {
      var context := SynthesisContext(patientText, metaphor, emotion, risk);
      if context.Failure? {
        return Failure(context.error);
      }
      var synthesis := synthesisAgent.ExecuteSynthesis(rt, context.value, rp.synthesisReasoning, rp.summaryReply,
        rp.synthesisReply);
      var result := new Dict(Assembled(rt, patientText, metaphor, emotion, risk, synthesis));
      var guardError := ApplySafetyGuardrails(rt, result);
      if guardError.Some? {
        return Failure(guardError.value);
      }
      r := Success(result.entries);
    }

    /**
     * `run_what_if(baseline_text, hypothetical_text)`: two runs, then the
     * comparison of their reduced contexts; `compare` stands for the
     * what-if agent.
     */
    method RunWhatIf(rt: Runtime, baselineText: string, rb: Replies, hypotheticalText: string, rh: Replies,
                     compare: Value -> Value)
      returns (r: Result<Entries, Error>)
      requires Valid()
      modifies metaphorAgent, emotionAgent, riskAgent, synthesisAgent
      ensures Valid()
      ensures r == WhatIf(rt, metaphorAgent.ontology, baselineText, rb, hypotheticalText, rh, compare)
    {
      var baseline := RunClarify(rt, baselineText, rb);
      if baseline.Failure? {
        return Failure(baseline.error);
      }
      var hypothetical := RunClarify(rt, hypotheticalText, rh);
      if hypothetical.Failure? {
        return Failure(hypothetical.error);
      }
      var comparison := compare(WhatIfContext(baseline.value, hypothetical.value));
      r := Success([("baseline", VDict(baseline.value)), ("hypothetical", VDict(hypothetical.value)),
                    ("comparison", comparison)]);
    }
  }

  // ---------------------------------------------------------------------
  // run_what_if (lines 105-135)

  const SideKeys: seq<string> := ["metaphor", "emotions", "risk", "summary"]

  /** Lines 116-127 for one side: only these four keys, each defaulting to `{}`. */
  function Side(result: Entries): (r: Entries)
    ensures Keys(r) == SideKeys
    ensures forall i | 0 <= i < 4 :: r[i].1 == GetOr(result, SideKeys[i], VDict([]))
  {
    var r := [ ("metaphor", GetOr(result, "metaphor", VDict([]))),
               ("emotions", GetOr(result, "emotions", VDict([]))),
               ("risk", GetOr(result, "risk", VDict([]))),
               ("summary", GetOr(result, "summary", VDict([]))) ];
    assert Keys(r) == SideKeys;
    r
  }

  /** The compact context the what-if agent compares. */
  function WhatIfContext(baseline: Entries, hypothetical: Entries): Value {
    VDict([("baseline", VDict(Side(baseline))), ("hypothetical", VDict(Side(hypothetical)))])
  }

  function WhatIf(rt: Runtime, o: Ontology, baselineText: string, rb: Replies, hypotheticalText: string, rh: Replies,
                  compare: Value -> Value): Result<Entries, Error> {
    var baseline :- Clarify(rt, o, baselineText, rb);
    var hypothetical :- Clarify(rt, o, hypotheticalText, rh);
    Success([("baseline", VDict(baseline)), ("hypothetical", VDict(hypothetical)),
             ("comparison", compare(WhatIfContext(baseline, hypothetical)))])
  }

  /**
   * The what-if agent sees, for each side, exactly the metaphor, emotions,
   * risk and summary of that side's run, and nothing else of it (no
   * patient voice, reasoning, metadata, notes or violations).
   */
  lemma WhatIfSeesFourKeys(rt: Runtime, o: Ontology, baselineText: string, rb: Replies, hypotheticalText: string, rh: Replies)
    requires Clarify(rt, o, baselineText, rb).Success? && Clarify(rt, o, hypotheticalText, rh).Success?
    ensures var b, h := Clarify(rt, o, baselineText, rb).value, Clarify(rt, o, hypotheticalText, rh).value;
      && WhatIfContext(b, h) == VDict([("baseline", VDict(Side(b))), ("hypothetical", VDict(Side(h)))])
      && Keys(Side(b)) == SideKeys && Keys(Side(h)) == SideKeys
      && (forall i | 0 <= i < 4 :: Lookup(b, SideKeys[i]) == Some(Side(b)[i].1))
      && (forall i | 0 <= i < 4 :: Lookup(h, SideKeys[i]) == Some(Side(h)[i].1))
  {
    var b, h := Clarify(rt, o, baselineText, rb).value, Clarify(rt, o, hypotheticalText, rh).value;
    FinishKeepsAssembled(rt, baselineText, Outputs(rt, o, baselineText, rb));
    FinishKeepsAssembled(rt, hypotheticalText, Outputs(rt, o, hypotheticalText, rh));
    SideOfFull(b);
    SideOfFull(h);
  }

  /** A result holding every assembled key gives the what-if agent that key's own value. */
  lemma SideOfFull(r: Entries)
    requires forall k | k in ResultKeys :: Has(r, k)
    ensures forall i | 0 <= i < 4 :: Lookup(r, SideKeys[i]) == Some(Side(r)[i].1)
  {
    assert forall i | 0 <= i < 4 :: SideKeys[i] in ResultKeys;
  }

}
