/**
 * The doctor dashboard's in-memory store (dashboard_models.py): patients in
 * a dict keyed by id, each with encounters kept in time order, and the risk
 * level of an encounter read off the stored pipeline result.
 *
 * Ids (uuid4) and the clock (utcnow) are parameters; a time is a number of
 * ticks, with 0 standing for `datetime.min`.
 */
module Dashboard {
  import opened Wrappers
  import opened Text
  import opened Py

  const DoctorId := "doctor-1"

  datatype Encounter = Encounter(
    id: string, patientId: string, doctorId: string, createdAt: nat, narrative: string, rawResult: Entries,
    riskLevel: Value, uncertaintyFlags: seq<Value>)

  datatype Patient = Patient(
    id: string, displayName: string, age: Option<int>, weightKg: Option<real>, bloodGroup: Option<string>,
    notes: Option<string>, encounters: seq<Encounter>)

  // ---------------------------------------------------------------------
  // Encounters in time order (lines 300-302)

  predicate ByTime(es: seq<Encounter>) {
    forall i, j | 0 <= i < j < |es| :: es[i].createdAt <= es[j].createdAt
  }

  /** `es` with `e` spliced in at `k`, between the encounters not later than it and the later ones. */
  predicate SplicedAt(es: seq<Encounter>, e: Encounter, k: int, r: seq<Encounter>) {
    && 0 <= k <= |es|
    && r == es[..k] + [e] + es[k..]
    && (forall i | 0 <= i < k :: es[i].createdAt <= e.createdAt)
    && (forall i | k <= i < |es| :: es[i].createdAt > e.createdAt)
  }

  /** How many leading encounters are not later than `t`: in a time-ordered list, exactly those. */
  function Cut(es: seq<Encounter>, t: nat): (k: nat)
    requires ByTime(es)
    ensures k <= |es|
    ensures forall i | 0 <= i < k :: es[i].createdAt <= t
    ensures forall i | k <= i < |es| :: es[i].createdAt > t
  {
    if |es| == 0 then 0
    else if es[|es| - 1].createdAt <= t then
      assert forall i | 0 <= i < |es| - 1 :: es[i].createdAt <= es[|es| - 1].createdAt;
      |es|
    else
      Cut(es[..|es| - 1], t)
  }

  /**
   * `encounters.append(e); encounters.sort(key=created_at)` on a list already
   * in time order: the sort is stable, so `e` lands after every encounter
   * that is not later than it and before every later one.
   */
  function InsertByTime(es: seq<Encounter>, e: Encounter): (r: seq<Encounter>)
    requires ByTime(es)
    ensures SplicedAt(es, e, Cut(es, e.createdAt), r)
    ensures ByTime(r) && multiset(r) == multiset(es) + multiset{e}
  {
    var k := Cut(es, e.createdAt);
    SplicedByTime(es, e, k, es[..k] + [e] + es[k..]);
    es[..k] + [e] + es[k..]
  }

  /** Splicing keeps a time-ordered list in order and adds exactly the one encounter. */
  lemma SplicedByTime(es: seq<Encounter>, e: Encounter, k: int, r: seq<Encounter>)
    requires ByTime(es) && SplicedAt(es, e, k, r)
    ensures ByTime(r)
    ensures multiset(r) == multiset(es) + multiset{e}
  {
    InsertedCounted(es, e, k, r);
    assert forall i | 0 <= i < k :: r[i] == es[i];
    assert r[k] == e;
    assert forall i | k < i < |r| :: r[i] == es[i - 1];
    forall i, j | 0 <= i < j < |r| ensures r[i].createdAt <= r[j].createdAt {
      if i < k <= j {
        assert r[i].createdAt <= e.createdAt;
      }
    }
  }

  /** Inserting `x` at `k` adds exactly `x` to the elements. */
  lemma InsertedCounted<T>(xs: seq<T>, x: T, k: int, r: seq<T>)
    requires 0 <= k <= |xs| && r == xs[..k] + [x] + xs[k..]
    ensures multiset(r) == multiset(xs) + multiset{x}
  {
    assert xs == xs[..k] + xs[k..];
  }

  lemma FreshKeyAddsOne(m: map<string, Patient>, k: string, p: Patient)
    requires k !in m
    ensures |m[k := p]| == |m| + 1
  {
    assert m[k := p].Keys == m.Keys + {k};
  }

  // ---------------------------------------------------------------------
  // Risk level of an encounter (lines 266-287)

  /** `"HIGH" in first.upper()`, then MODERATE, then LOW, else "unknown" (lines 276-284). */
  function LevelOfLine(first: string): (level: string)
    ensures level in {"high", "moderate", "low", "unknown"}
    ensures Contains(Upper(first), "HIGH") ==> level == "high"
    ensures !Contains(Upper(first), "HIGH") && Contains(Upper(first), "MODERATE") ==> level == "moderate"
    ensures !Contains(Upper(first), "HIGH") && !Contains(Upper(first), "MODERATE") && Contains(Upper(first), "LOW") ==>
      level == "low"
    ensures !Contains(Upper(first), "HIGH") && !Contains(Upper(first), "MODERATE") && !Contains(Upper(first), "LOW") ==>
      level == "unknown"
  {
    var up := Upper(first);
    if Contains(up, "HIGH") then "high"
    else if Contains(up, "MODERATE") then "moderate"
    else if Contains(up, "LOW") then "low"
    else "unknown"
  }

  /**
   * The risk level and uncertainty flags stored with an encounter. A dict
   * risk gives "risk_level", else "level", else "unknown"; a non-empty list
   * is read off its first line; anything else is "unknown" without flags.
   * `list(uncertainties or [])` raises TypeError on a number or boolean.
   */
  function RiskOf(rt: Runtime, raw: Entries): (r: Result<(Value, seq<Value>), Error>)
    ensures var risk := GetOr(raw, "risk", VDict([]));
      !risk.VDict? && !(risk.VList? && |risk.items| > 0) ==> r == Success((VStr("unknown"), []))
  {
    var risk := GetOr(raw, "risk", VDict([]));
    var flags := ToList(Or(GetOr(raw, "uncertainties", VList([])), VList([])));
    if risk.VDict? then
      var level := Or(Or(GetOr(risk.entries, "risk_level", VNone), GetOr(risk.entries, "level", VNone)), VStr("unknown"));
      var fs :- flags;
      Success((level, fs))
    else if risk.VList? && |risk.items| > 0 then
      var level := LevelOfLine(Str(rt, risk.items[0]));
      var fs :- flags;
      Success((VStr(level), fs))
    else Success((VStr("unknown"), []))
  }

  /** For a dict risk the level is the first truthy of "risk_level" and "level", else "unknown". */
  lemma RiskOfDict(rt: Runtime, raw: Entries)
    requires GetOr(raw, "risk", VDict([])).VDict? && RiskOf(rt, raw).Success?
    ensures var d := GetOr(raw, "risk", VDict([])).entries;
      var level := RiskOf(rt, raw).value.0;
      && Truthy(level)
      && (Truthy(GetOr(d, "risk_level", VNone)) ==> level == GetOr(d, "risk_level", VNone))
      && (!Truthy(GetOr(d, "risk_level", VNone)) && Truthy(GetOr(d, "level", VNone)) ==> level == GetOr(d, "level", VNone))
      && (!Truthy(GetOr(d, "risk_level", VNone)) && !Truthy(GetOr(d, "level", VNone)) ==> level == VStr("unknown"))
  {
  }

  /**
   * For a non-empty list risk the level is read off the upper-cased first
   * line: HIGH wins over MODERATE, which wins over LOW, else "unknown".
   */
  lemma RiskOfList(rt: Runtime, raw: Entries)
    requires var risk := GetOr(raw, "risk", VDict([])); risk.VList? && |risk.items| > 0
    requires RiskOf(rt, raw).Success?
    ensures var up := Upper(Str(rt, GetOr(raw, "risk", VDict([])).items[0]));
      var level := RiskOf(rt, raw).value.0;
      && level.VStr? && level.s in {"high", "moderate", "low", "unknown"}
      && (Contains(up, "HIGH") ==> level == VStr("high"))
      && (!Contains(up, "HIGH") && Contains(up, "MODERATE") ==> level == VStr("moderate"))
      && (!Contains(up, "HIGH") && !Contains(up, "MODERATE") && Contains(up, "LOW") ==> level == VStr("low"))
      && (!Contains(up, "HIGH") && !Contains(up, "MODERATE") && !Contains(up, "LOW") ==> level == VStr("unknown"))
  {
  }

  /** Flags come from a list, string or dict of uncertainties; a number or boolean raises TypeError. */
  lemma RiskOfFlags(rt: Runtime, raw: Entries)
    requires var risk := GetOr(raw, "risk", VDict([])); risk.VDict? || (risk.VList? && |risk.items| > 0)
    ensures var u := GetOr(raw, "uncertainties", VList([]));
      && (u.VList? ==> RiskOf(rt, raw).Success? && RiskOf(rt, raw).value.1 == u.items)
      && (!Truthy(u) ==> RiskOf(rt, raw).Success? && RiskOf(rt, raw).value.1 == [])
      && (Truthy(u) && (u.VNum? || u.VBool?) ==> RiskOf(rt, raw) == Failure(TypeError))
  {
  }

  // ---------------------------------------------------------------------
  // Patients by latest encounter (lines 207-214)

  /** The sort key: the last encounter's time, or `datetime.min` for a patient without one. */
  function Recency(p: Patient): nat {
    if |p.encounters| == 0 then 0 else p.encounters[|p.encounters| - 1].createdAt
  }

  predicate MostRecentFirst(ps: seq<Patient>) {
    forall i, j | 0 <= i < j < |ps| :: Recency(ps[i]) >= Recency(ps[j])
  }

  /** `ps` with `p` placed at `k`, after the patients at least as recent and before the less recent ones. */
  predicate PlacedAt(ps: seq<Patient>, p: Patient, k: int, r: seq<Patient>) {
    && 0 <= k <= |ps|
    && r == ps[..k] + [p] + ps[k..]
    && (forall i | 0 <= i < k :: Recency(ps[i]) >= Recency(p))
    && (forall i | k <= i < |ps| :: Recency(ps[i]) < Recency(p))
  }

  /** How many leading patients are at least as recent as `key`: in a most-recent-first list, exactly those. */
  function CutByRecency(ps: seq<Patient>, key: nat): (k: nat)
    requires MostRecentFirst(ps)
    ensures k <= |ps|
    ensures forall i | 0 <= i < k :: Recency(ps[i]) >= key
    ensures forall i | k <= i < |ps| :: Recency(ps[i]) < key
  {
    if |ps| == 0 then 0
    else if Recency(ps[|ps| - 1]) >= key then
      assert forall i | 0 <= i < |ps| - 1 :: Recency(ps[i]) >= Recency(ps[|ps| - 1]);
      |ps|
    else
      CutByRecency(ps[..|ps| - 1], key)
  }

  /** One step of a stable descending insertion: `p` goes after every patient at least as recent. */
  function InsertByRecency(ps: seq<Patient>, p: Patient): (r: seq<Patient>)
    requires MostRecentFirst(ps)
    ensures PlacedAt(ps, p, CutByRecency(ps, Recency(p)), r)
    ensures MostRecentFirst(r) && multiset(r) == multiset(ps) + multiset{p}
  {
    var k := CutByRecency(ps, Recency(p));
    PlacedByRecency(ps, p, k, ps[..k] + [p] + ps[k..]);
    ps[..k] + [p] + ps[k..]
  }

  /** Placing keeps the order most recent first and adds exactly the one patient. */
  lemma PlacedByRecency(ps: seq<Patient>, p: Patient, k: int, r: seq<Patient>)
    requires MostRecentFirst(ps) && PlacedAt(ps, p, k, r)
    ensures MostRecentFirst(r)
    ensures multiset(r) == multiset(ps) + multiset{p}
  {
    InsertedCounted(ps, p, k, r);
    assert forall i | 0 <= i < k :: r[i] == ps[i];
    assert r[k] == p;
    assert forall i | k < i < |r| :: r[i] == ps[i - 1];
    forall i, j | 0 <= i < j < |r| ensures Recency(r[i]) >= Recency(r[j]) {
      if i < k <= j {
        assert Recency(r[i]) >= Recency(p);
      }
    }
  }

  /** `sorted(ps, key=recency, reverse=True)`, which keeps equal keys in their original order. */
  function ByRecency(ps: seq<Patient>): (r: seq<Patient>)
    ensures MostRecentFirst(r)
    ensures multiset(r) == multiset(ps)
  {
    if |ps| == 0 then []
    else
      assert ps == ps[..|ps| - 1] + [ps[|ps| - 1]];
      InsertByRecency(ByRecency(ps[..|ps| - 1]), ps[|ps| - 1])
  }

  // ---------------------------------------------------------------------
  // DashboardStorage (lines 90-304), in memory

  function StripOr(name: string): (r: string)
    ensures |r| > 0
    ensures Strip(name) != "" ==> r == Strip(name)
  {
    var s := Strip(name);
    if |s| == 0 then "Unnamed Patient" else s
  }

  class DashboardStorage {
    var patients: map<string, Patient>
    /** The dict's insertion order. */
    var order: seq<string>

    ghost predicate Valid()
      reads this
    {
      && (forall i, j | 0 <= i < j < |order| :: order[i] != order[j])
      && (forall id :: id in patients <==> id in order)
      && (forall id | id in patients :: PatientValid(id, patients[id]))
    }

    static predicate PatientValid(id: string, p: Patient) {
      && p.id == id
      && ByTime(p.encounters)
      && (forall i | 0 <= i < |p.encounters| ::
            p.encounters[i].patientId == id && p.encounters[i].doctorId == DoctorId)
    }

    /** The patients in dict order. */
    function Values(): (ps: seq<Patient>)
      reads this
      requires Valid()
      ensures |ps| == |order|
    {
      seq(|order|, i reads this requires 0 <= i < |order| && Valid() => patients[order[i]])
    }

    /** A store with no file behind it: the single demo clinician and no patients. */
    constructor()
      ensures Valid() && patients == map[] && order == []
    {
      patients := map[];
      order := [];
    }

    /** `list_patients()`: every patient once, most recent encounter first, encounter-less last. */
    method ListPatients() returns (r: seq<Patient>)
      requires Valid()
      ensures r == ByRecency(Values())
      ensures MostRecentFirst(r) && multiset(r) == multiset(Values())
    {
      r := ByRecency(Values());
    }

    /** `get_patient(patient_id)`: the patient, or None for an unknown id. */
    method GetPatient(patientId: string) returns (r: Option<Patient>)
      ensures r.None? <==> patientId !in patients
      ensures r.Some? ==> r.value == patients[patientId]
    {
      if patientId in patients {
        r := Some(patients[patientId]);
      } else {
        r := None;
      }
    }

    /**
     * `create_patient(...)` with `id` standing for the fresh uuid: the name
     * is stripped, falling back to "Unnamed Patient", and the patient starts
     * with no encounters.
     */
    method CreatePatient(displayName: string, notes: Option<string>, age: Option<int>, weightKg: Option<real>,
                         bloodGroup: Option<string>, id: string) returns (p: Patient)
      requires Valid()
      modifies this
      ensures Valid()
      ensures p == Patient(id, StripOr(displayName), age, weightKg, bloodGroup, notes, [])
      ensures patients == old(patients)[id := p]
      ensures order == if id in old(patients) then old(order) else old(order) + [id]
      ensures id !in old(patients) ==> |patients| == |old(patients)| + 1
    {
      p := Patient(id, StripOr(displayName), age, weightKg, bloodGroup, notes, []);
      assert PatientValid(id, p);
      if id !in patients {
        assert id !in order;
        FreshKeyAddsOne(patients, id, p);
        order := order + [id];
      }
      patients := patients[id := p];
    }

    /**
     * `add_encounter(...)` with `encounterId` and `now` standing for the uuid
     * and the clock (always after `datetime.min`): an unknown patient raises ValueError and a bad
     * uncertainties value TypeError, both before anything changes; otherwise
     * the encounter joins the patient's list in time order.
     */
    method AddEncounter(rt: Runtime, patientId: string, narrative: string, raw: Entries, encounterId: string, now: nat)
      returns (r: Result<Encounter, Error>)
      requires Valid() && now > 0
      modifies this
      ensures Valid()
      ensures order == old(order)
      ensures patientId !in old(patients) ==> r == Failure(ValueError) && patients == old(patients)
      ensures patientId in old(patients) && RiskOf(rt, raw).Failure? ==>
        r == Failure(RiskOf(rt, raw).error) && patients == old(patients)
      ensures patientId in old(patients) && RiskOf(rt, raw).Success? ==> r.Success?
      ensures r.Success? ==>
        && patientId in old(patients) && RiskOf(rt, raw).Success?
        && r.value == Encounter(encounterId, patientId, DoctorId, now, narrative, raw,
                                RiskOf(rt, raw).value.0, RiskOf(rt, raw).value.1)
        && patients == old(patients)[patientId :=
             old(patients)[patientId].(encounters := InsertByTime(old(patients)[patientId].encounters, r.value))]
    {
      if patientId !in patients {
        return Failure(ValueError);
      }
      var patient := patients[patientId];
      var risk := RiskOf(rt, raw);
      if risk.Failure? {
        return Failure(risk.error);
      }
      var e := Encounter(encounterId, patient.id, DoctorId, now, narrative, raw, risk.value.0, risk.value.1);
      var encounters := InsertByTime(patient.encounters, e);
      patients := patients[patientId := patient.(encounters := encounters)];
      r := Success(e);
      assert PatientValid(patientId, patients[patientId]) by {
        forall i | 0 <= i < |encounters| ensures encounters[i].patientId == patientId && encounters[i].doctorId == DoctorId {
          assert encounters[i] in multiset(patient.encounters) + multiset{e};
        }
      }
    }
  }
}
