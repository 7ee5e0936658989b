/**
 * The local medical ontology and the retrieval over it: a category names a
 * table of keys, each key a `/`-separated list of words; a query retrieves
 * the values of every key one of whose words occurs in the lower-cased query.
 */
module Ontology {
  import opened Wrappers
  import opened Text
  import opened Py

  /** Keys to their concept lists, in insertion order. */
  type Table = seq<(string, seq<string>)>

  /** Categories to their tables, in insertion order. */
  type Ontology = seq<(string, Table)>

  /** The table for `category`, as `category in ontology` and `ontology[category]`. */
  function Category(o: Ontology, category: string): (r: Option<Table>)
    ensures r.None? <==> forall i | 0 <= i < |o| :: o[i].0 != category
    ensures r.Some? ==> exists i | 0 <= i < |o| :: o[i] == (category, r.value)
  {
    if |o| == 0 then None
    else if o[0].0 == category then Some(o[0].1)
    else
      var r := Category(o[1..], category);
      assert r.Some? ==> exists i | 0 <= i < |o[1..]| :: o[1..][i] == (category, r.value);
      r
  }

  /** `any(term in query for term in key.split('/'))`. */
  predicate KeyMatches(key: string, query: string) {
    exists term | term in Split(key, '/') :: Contains(query, term)
  }

  /** The concatenated values of the matching keys, in key order. */
  function Matches(t: Table, query: string): (r: seq<string>)
  {
    if |t| == 0 then []
    else
      var last := t[|t| - 1];
      Matches(t[..|t| - 1], query) + (if KeyMatches(last.0, query) then last.1 else [])
  }

  /** Everything retrieved comes from a matching key, and every value of a matching key is retrieved. */
  lemma {:induction false} MatchesExactly(t: Table, query: string, x: string)
    ensures x in Matches(t, query) <==>
      exists j | 0 <= j < |t| :: KeyMatches(t[j].0, query) && x in t[j].1
  {
    if |t| > 0 {
      var init := t[..|t| - 1];
      MatchesExactly(init, query, x);
      if x in Matches(init, query) {
        var j :| 0 <= j < |init| && KeyMatches(init[j].0, query) && x in init[j].1;
        assert t[j] == init[j];
      }
      if exists j | 0 <= j < |t| :: KeyMatches(t[j].0, query) && x in t[j].1 {
        var j :| 0 <= j < |t| && KeyMatches(t[j].0, query) && x in t[j].1;
        if j < |init| {
          assert init[j] == t[j];
        }
      }
    }
  }

  /** The query every retrieval lower-cases first. */
  function RagQuery(rt: Runtime, query: Value): (q: string)
    ensures query.VStr? ==> q == Lower(query.s)
    ensures !Truthy(query) ==> q == ""
  {
    Lower(StrIfTruthy(rt, query))
  }

  /**
   * The result of `use_rag` on `ontology`: the first `k` matches, or nothing
   * for an unknown category.
   */
  function Retrieve(o: Ontology, category: string, q: string, k: int): (r: seq<string>)
    ensures Category(o, category).None? ==> r == []
    ensures Category(o, category).Some? ==> r == SliceTo(Matches(Category(o, category).value, q), k)
  {
    match Category(o, category)
    case None => []
    case Some(t) => SliceTo(Matches(t, q), k)
  }

  /** `use_rag` returns a prefix of the matches, at most `k` of them, each from a matching key. */
  lemma RetrieveBounded(o: Ontology, category: string, q: string, k: nat, x: string)
    ensures |Retrieve(o, category, q, k)| <= k
    ensures x in Retrieve(o, category, q, k) ==>
      exists t: Table, j :: Category(o, category) == Some(t) && 0 <= j < |t| && KeyMatches(t[j].0, q) && x in t[j].1
  {
    if x in Retrieve(o, category, q, k) {
      var t := Category(o, category).value;
      var m := Matches(t, q);
      assert x in m[..|Retrieve(o, category, q, k)|];
      MatchesExactly(t, q, x);
    }
  }

  /** Every key of the table splits into non-empty words. */
  predicate WellFormedTable(t: Table) {
    forall j | 0 <= j < |t| :: SeparatedBy(t[j].0, '/')
  }

  predicate WellFormedKeys(o: Ontology) {
    forall c | 0 <= c < |o| :: WellFormedTable(o[c].1)
  }

  lemma {:induction false} NothingMatches(t: Table, q: string)
    requires forall j | 0 <= j < |t| :: !KeyMatches(t[j].0, q)
    ensures Matches(t, q) == []
  {
    if |t| > 0 {
      NothingMatches(t[..|t| - 1], q);
    }
  }

  /** With non-empty key words, the empty query retrieves nothing. */
  lemma EmptyQueryRetrievesNothing(o: Ontology, category: string, k: int)
    requires WellFormedKeys(o)
    ensures Retrieve(o, category, "", k) == []
  {
    if Category(o, category).Some? {
      var t := Category(o, category).value;
      var c :| 0 <= c < |o| && o[c] == (category, t);
      forall j | 0 <= j < |t| ensures !KeyMatches(t[j].0, "") {
        SplitNonEmpty(t[j].0, '/');
      }
      NothingMatches(t, "");
    }
  }

  /** `LocalOntologySearch`: the same retrieval with a caller-chosen `k`. */
  class LocalOntologySearch {
    const ontology: Ontology

    constructor (ontology: Ontology)
      ensures this.ontology == ontology
    {
      this.ontology := ontology;
    }

    /**
     * `search`: `(query or "").lower()` raises AttributeError for a truthy
     * non-string; otherwise the first `k` matches.
     */
    method Search(query: Value, category: string, k: int) returns (r: Result<seq<string>, Error>)
      ensures r == SearchSpec(ontology, query, category, k)
    {
      var q := Or(query, VStr(""));
      if !q.VStr? {
        return Failure(AttributeError);
      }
      var queryLower := Lower(q.s);
      var table := Category(ontology, category);
      if table.None? {
        return Success([]);
      }
      var t := table.value;
      var matches: seq<string> := [];
      var i := 0;
      while i < |t|
        invariant 0 <= i <= |t|
        invariant matches == Matches(t[..i], queryLower)
      {
        assert t[..i + 1][..i] == t[..i];
        if KeyMatches(t[i].0, queryLower) {
          matches := matches + t[i].1;
        }
        i := i + 1;
      }
      assert t[..|t|] == t;
      return Success(SliceTo(matches, k));
    }
  }

  function SearchSpec(o: Ontology, query: Value, category: string, k: int): (r: Result<seq<string>, Error>)
    ensures Truthy(query) && !query.VStr? <==> r == Failure(AttributeError)
  {
    var q := Or(query, VStr(""));
    if q.VStr? then Success(Retrieve(o, category, Lower(q.s), k)) else Failure(AttributeError)
  }

  /** For a string or a falsy query, `search(q, c, 5)` is exactly `use_rag(q, c)`. */
  lemma SearchIsUseRag(rt: Runtime, o: Ontology, query: Value, category: string)
    requires query.VStr? || !Truthy(query)
    ensures SearchSpec(o, query, category, 5) == Success(Retrieve(o, category, RagQuery(rt, query), 5))
  {
  }

  /** The ontology `get_medical_ontology` returns. */
  function MedicalOntology(): Ontology {
    [("metaphors", MetaphorTable()), ("emotional_biomarkers", EmotionTable()), ("risk_indicators", RiskTable())]
  }

  function MetaphorTable(): Table {
    [ ("pressure/tightness", ["tension", "cephalalgia", "pressure sensation", "constriction"]),
      ("hollow/empty", ["palpitations", "chest discomfort", "sensation of emptiness"]),
      ("burning", ["dyspepsia", "gastroesophageal reflux", "burning sensation"]),
      ("sharp/stabbing", ["acute pain", "sharp pain", "stabbing sensation"]),
      ("dull/aching", ["chronic pain", "dull ache", "persistent discomfort"]),
      ("fluttering", ["palpitations", "arrhythmia", "irregular heartbeat"]),
      ("snapping/breaking", ["acute exacerbation", "sudden onset", "acute episode"]),
      ("weight/heaviness", ["chest heaviness", "dyspnea", "respiratory distress"]),
      ("foggy/cloudy", ["cognitive impairment", "mental fog", "confusion"]),
      ("racing", ["tachycardia", "anxiety", "hyperarousal"]) ]
  }

  function EmotionTable(): Table {
    [ ("fear", ["anxiety-related distress", "apprehension", "fearful affect"]),
      ("panic", ["acute anxiety", "panic-like symptoms", "severe distress"]),
      ("sadness", ["low mood", "depressed affect", "dysphoria"]),
      ("anger", ["irritability", "agitation", "hostile affect"]),
      ("confusion", ["cognitive disorientation", "mental confusion", "altered mental status"]),
      ("helplessness", ["sense of powerlessness", "vulnerability", "loss of control"]) ]
  }

  function RiskTable(): Table {
    [ ("high", ["chest pain", "shortness of breath", "loss of consciousness", "severe pain", "trauma", "bleeding"]),
      ("moderate", ["persistent symptoms", "worsening condition", "functional impairment"]),
      ("low", ["mild symptoms", "stable condition", "chronic well-managed"]) ]
  }

  lemma MetaphorKeys()
    ensures WellFormedTable(MetaphorTable())
  {
    var t := MetaphorTable();
    assert SeparatedBy(t[0].0, '/');
    assert SeparatedBy(t[1].0, '/');
    assert SeparatedBy(t[2].0, '/');
    assert SeparatedBy(t[3].0, '/');
    assert SeparatedBy(t[4].0, '/');
    assert SeparatedBy(t[5].0, '/');
    assert SeparatedBy(t[6].0, '/');
    assert SeparatedBy(t[7].0, '/');
    assert SeparatedBy(t[8].0, '/');
    assert SeparatedBy(t[9].0, '/');
  }

  lemma EmotionAndRiskKeys()
    ensures WellFormedTable(EmotionTable()) && WellFormedTable(RiskTable())
  {
    var t, u := EmotionTable(), RiskTable();
    assert SeparatedBy(t[0].0, '/') && SeparatedBy(t[1].0, '/') && SeparatedBy(t[2].0, '/');
    assert SeparatedBy(t[3].0, '/') && SeparatedBy(t[4].0, '/') && SeparatedBy(t[5].0, '/');
    assert SeparatedBy(u[0].0, '/') && SeparatedBy(u[1].0, '/') && SeparatedBy(u[2].0, '/');
  }

  /** The three categories, in order, whose keys split into non-empty words. */
  lemma MedicalOntologyShape()
    ensures |MedicalOntology()| == 3
    ensures MedicalOntology()[0].0 == "metaphors"
    ensures MedicalOntology()[1].0 == "emotional_biomarkers"
    ensures MedicalOntology()[2].0 == "risk_indicators"
    ensures WellFormedKeys(MedicalOntology())
  {
    MetaphorKeys();
    EmotionAndRiskKeys();
  }

  /** A missing or empty query retrieves nothing from the medical ontology, for any category and `k`. */
  lemma EmptyMedicalQuery(rt: Runtime, query: Value, category: string, k: int)
    requires !Truthy(query)
    ensures SearchSpec(MedicalOntology(), query, category, k) == Success([])
    ensures Retrieve(MedicalOntology(), category, RagQuery(rt, query), k) == []
  {
    MedicalOntologyShape();
    EmptyQueryRetrievesNothing(MedicalOntology(), category, k);
  }
}
