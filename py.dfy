/**
 * The slice of Python's dynamic values the pipeline handles: JSON-shaped
 * values (what `json.loads` yields and what the dict literals build), the
 * built-ins the code applies to them, and the exceptions those raise.
 */
module Py {
  import opened Wrappers
  import opened Text

  /** A Python value. Numbers (int or float) are `real`; dicts keep insertion order. */
  datatype Value =
    | VNone
    | VBool(b: bool)
    | VNum(n: real)
    | VStr(s: string)
    | VList(items: seq<Value>)
    | VDict(entries: seq<(string, Value)>)

  /** The built-in exceptions the modelled code can raise. */
  datatype Error = TypeError | ValueError | AttributeError | KeyError

  /**
   * What the model takes from the interpreter as given: `str()` of a number,
   * list or dict; `float()` of a string (None where it raises ValueError);
   * `json.loads` of a text starting with `{` (an object) or with `[` (an
   * array), None where it raises; `json.dumps(..., indent=2)`; and
   * `format(x, ".2f")` of a number.
   */
  datatype Runtime = Runtime(
    repr: Value -> string,
    parseFloat: string -> Option<real>,
    loadsObject: string -> Option<seq<(string, Value)>>,
    loadsArray: string -> Option<seq<Value>>,
    dumps: Value -> string,
    fixed2: real -> string)

  /** `bool(v)`. */
  predicate Truthy(v: Value) {
    match v
    case VNone => false
    case VBool(b) => b
    case VNum(n) => n != 0.0
    case VStr(s) => |s| > 0
    case VList(items) => |items| > 0
    case VDict(entries) => |entries| > 0
  }

  /** `a or b`. */
  function Or(a: Value, b: Value): (r: Value)
    ensures Truthy(a) ==> r == a
    ensures !Truthy(a) ==> r == b
  {
    if Truthy(a) then a else b
  }

  /** `str(v)`. */
  function Str(rt: Runtime, v: Value): (r: string)
    ensures v.VStr? ==> r == v.s
    ensures v == VNone ==> r == "None"
  {
    match v
    case VStr(s) => s
    case VNone => "None"
    case VBool(b) => if b then "True" else "False"
    case _ => rt.repr(v)
  }

  /** `str(v) if v else ""`, a coercion several call sites spell out. */
  function StrIfTruthy(rt: Runtime, v: Value): (r: string)
    ensures !Truthy(v) ==> r == ""
    ensures v.VStr? ==> r == v.s
  {
    if Truthy(v) then Str(rt, v) else ""
  }

  // ---------------------------------------------------------------------
  // Dicts as association lists in insertion order

  type Entries = seq<(string, Value)>

  /** `d[k]` when present: the value of the first entry with key `k`. */
  function Lookup(d: Entries, k: string): (r: Option<Value>)
  {
    if |d| == 0 then None
    else if d[0].0 == k then Some(d[0].1)
    else Lookup(d[1..], k)
  }

  /** A missing key is one no entry carries; a found value is some entry's under that key. */
  lemma {:induction false} LookupMeaning(d: Entries, k: string)
    ensures Lookup(d, k).None? <==> forall i | 0 <= i < |d| :: d[i].0 != k
    ensures Lookup(d, k).Some? ==> exists i | 0 <= i < |d| :: d[i] == (k, Lookup(d, k).value)
  {
    if |d| > 0 && d[0].0 != k {
      LookupMeaning(d[1..], k);
      var r := Lookup(d[1..], k);
      if r.Some? {
        var i :| 0 <= i < |d[1..]| && d[1..][i] == (k, r.value);
        assert d[i + 1] == (k, r.value);
      }
    }
  }

  /** `k in d`. */
  predicate Has(d: Entries, k: string) {
    Lookup(d, k).Some?
  }

  /** `d.get(k, default)`. */
  function GetOr(d: Entries, k: string, default: Value): (r: Value)
    ensures !Has(d, k) ==> r == default
  {
    match Lookup(d, k)
    case Some(v) => v
    case None => default
  }

  /** The keys in insertion order, i.e. iteration order of the dict. */
  function Keys(d: Entries): (ks: seq<string>)
    ensures |ks| == |d|
    ensures forall i | 0 <= i < |d| :: ks[i] == d[i].0
  {
    seq(|d|, i requires 0 <= i < |d| => d[i].0)
  }

  /** `d[k] = v`: an existing key keeps its place, a new key goes last. */
  function Store(d: Entries, k: string, v: Value): (r: Entries)
    ensures Has(d, k) ==> |r| == |d|
    ensures !Has(d, k) ==> r == d + [(k, v)]
  {
    if |d| == 0 then [(k, v)]
    else if d[0].0 == k then [(k, v)] + d[1..]
    else [d[0]] + Store(d[1..], k, v)
  }

  lemma {:induction false} StoreLookup(d: Entries, k: string, v: Value, k': string)
    ensures Lookup(Store(d, k, v), k') == if k' == k then Some(v) else Lookup(d, k')
  {
    if |d| > 0 && d[0].0 != k {
      StoreLookup(d[1..], k, v, k');
      assert ([d[0]] + Store(d[1..], k, v))[1..] == Store(d[1..], k, v);
    } else if |d| > 0 {
      assert ([(k, v)] + d[1..])[1..] == d[1..];
    }
  }

  lemma {:induction false} StoreKeepsPlaces(d: Entries, k: string, v: Value)
    ensures |Store(d, k, v)| >= |d|
    ensures forall i | 0 <= i < |d| :: Store(d, k, v)[i].0 == d[i].0
  {
    if |d| > 0 && d[0].0 != k {
      StoreKeepsPlaces(d[1..], k, v);
    }
  }

  /** Storing keeps the key order, adding a new key at the end. */
  lemma StoreKeys(d: Entries, k: string, v: Value)
    ensures Keys(Store(d, k, v)) == if Has(d, k) then Keys(d) else Keys(d) + [k]
  {
    StoreKeepsPlaces(d, k, v);
    var ks, ks' := Keys(Store(d, k, v)), if Has(d, k) then Keys(d) else Keys(d) + [k];
    assert forall i | 0 <= i < |ks| :: ks[i] == ks'[i];
  }

  /** Storing the value a key already has changes nothing. */
  lemma {:induction false} StoreSame(d: Entries, k: string, v: Value)
    requires Lookup(d, k) == Some(v)
    ensures Store(d, k, v) == d
  {
    if d[0].0 != k {
      StoreSame(d[1..], k, v);
      assert [d[0]] + d[1..] == d;
    } else {
      assert [(k, v)] + d[1..] == d;
    }
  }

  /** No key occurs twice, as in every dict Python builds. */
  predicate DistinctKeys(d: Entries) {
    forall i, j | 0 <= i < j < |d| :: d[i].0 != d[j].0
  }

  /** No string occurs twice. */
  predicate Unique(ks: seq<string>) {
    forall i, j | 0 <= i < j < |ks| :: ks[i] != ks[j]
  }

  /** In a dict whose keys are unique, `d[k]` finds the entry holding `k`. */
  lemma LookupUnique(d: Entries, i: int)
    requires 0 <= i < |d| && Unique(Keys(d))
    ensures Lookup(d, d[i].0) == Some(d[i].1)
  {
    LookupAt(d, i);
  }

  /** The entry at place `i` is the one `d[k]` finds when no earlier entry has its key. */
  lemma {:induction false} LookupAt(d: Entries, i: int)
    requires 0 <= i < |d|
    requires forall j | 0 <= j < i :: d[j].0 != d[i].0
    ensures Lookup(d, d[i].0) == Some(d[i].1)
  {
    if i > 0 {
      assert d[0].0 != d[i].0;
      assert d[1..][i - 1] == d[i];
      LookupAt(d[1..], i - 1);
    }
  }

  /** A `Value` that is a dict, with its entries. */
  predicate IsDict(v: Value) {
    v.VDict?
  }

  // ---------------------------------------------------------------------
  // Built-ins that may raise

  /** `float(v)`. */
  function ToFloat(rt: Runtime, v: Value): (r: Result<real, Error>)
    ensures v.VNum? ==> r == Success(v.n)
    ensures v.VList? || v.VDict? || v.VNone? ==> r == Failure(TypeError)
  {
    match v
    case VNum(n) => Success(n)
    case VBool(b) => Success(if b then 1.0 else 0.0)
    case VStr(s) =>
      (match rt.parseFloat(s)
       case Some(x) => Success(x)
       case None => Failure(ValueError))
    case _ => Failure(TypeError)
  }

  /** `list(v)`: a list is copied, a string yields its characters, a dict its keys. */
  function ToList(v: Value): (r: Result<seq<Value>, Error>)
    ensures v.VList? ==> r == Success(v.items)
    ensures v.VNone? || v.VBool? || v.VNum? ==> r == Failure(TypeError)
  {
    match v
    case VList(items) => Success(items)
    case VStr(s) => Success(seq(|s|, i requires 0 <= i < |s| => VStr([s[i]])))
    case VDict(d) => Success(seq(|d|, i requires 0 <= i < |d| => VStr(d[i].0)))
    case _ => Failure(TypeError)
  }

  /** `x in v` for a string `x`: substring, list element or dict key. */
  function Member(x: string, v: Value): (r: Result<bool, Error>)
    ensures v.VList? ==> r == Success(VStr(x) in v.items)
    ensures v.VStr? ==> r == Success(Contains(v.s, x))
    ensures v.VDict? ==> r == Success(Has(v.entries, x))
    ensures v.VNone? || v.VBool? || v.VNum? ==> r == Failure(TypeError)
  {
    match v
    case VList(items) => Success(VStr(x) in items)
    case VStr(s) => Success(Contains(s, x))
    case VDict(d) => Success(Has(d, x))
    case _ => Failure(TypeError)
  }

  /** `v.append(x)`, which exists on lists only. */
  function Append(v: Value, x: Value): (r: Result<Value, Error>)
    ensures v.VList? ==> r == Success(VList(v.items + [x]))
    ensures !v.VList? ==> r == Failure(AttributeError)
  {
    if v.VList? then Success(VList(v.items + [x])) else Failure(AttributeError)
  }

  /** `v >= c` against a float constant: numbers and booleans compare, the rest raise. */
  function AtLeast(v: Value, c: real): (r: Result<bool, Error>)
    ensures v.VNum? ==> r == Success(v.n >= c)
    ensures v.VNone? || v.VStr? || v.VList? || v.VDict? ==> r == Failure(TypeError)
  {
    match v
    case VNum(n) => Success(n >= c)
    case VBool(b) => Success((if b then 1.0 else 0.0) >= c)
    case _ => Failure(TypeError)
  }

  /** `sep.join(items)`: every item must be a string. */
  function JoinStrs(sep: string, items: seq<Value>): (r: Result<string, Error>)
    ensures r.Success? <==> forall i | 0 <= i < |items| :: items[i].VStr?
    ensures r.Success? ==> r.value == Join(sep, Texts(items))
    ensures r.Failure? ==> r.error == TypeError
  {
    if forall i | 0 <= i < |items| :: items[i].VStr? then Success(Join(sep, Texts(items))) else Failure(TypeError)
  }

  /** The strings held by a list of string values. */
  function Texts(items: seq<Value>): (r: seq<string>)
    ensures |r| == |items|
    ensures forall i | 0 <= i < |items| && items[i].VStr? :: r[i] == items[i].s
  {
    seq(|items|, i requires 0 <= i < |items| => if items[i].VStr? then items[i].s else "")
  }

  /** A list of strings as Python values. */
  function Strs(xs: seq<string>): (r: seq<Value>)
    ensures |r| == |xs|
    ensures forall i | 0 <= i < |xs| :: r[i] == VStr(xs[i])
  {
    seq(|xs|, i requires 0 <= i < |xs| => VStr(xs[i]))
  }

  /** `for x in labels: if x not in flags: flags.append(x)` on a list of values. */
  function Merge(flags: seq<Value>, labels: seq<string>): (r: seq<Value>)
    ensures |r| >= |flags| && r[..|flags|] == flags
    ensures forall l | l in labels :: VStr(l) in r
    ensures forall i | |flags| <= i < |r| :: r[i] !in flags && r[i].VStr? && r[i].s in labels
    ensures forall i, j | |flags| <= i < j < |r| :: r[i] != r[j]
  {
    if |labels| == 0 then flags
    else
      var init, last := labels[..|labels| - 1], labels[|labels| - 1];
      var m := Merge(flags, init);
      assert forall l | l in labels :: l in init || l == last;
      if VStr(last) in m then m
      else
        assert (m + [VStr(last)])[..|flags|] == m[..|flags|];
        m + [VStr(last)]
  }

  /** Merging labels that are all present already changes nothing. */
  lemma {:induction false} MergePresent(flags: seq<Value>, labels: seq<string>)
    requires forall l | l in labels :: VStr(l) in flags
    ensures Merge(flags, labels) == flags
  {
    if |labels| > 0 {
      var init := labels[..|labels| - 1];
      assert forall l | l in init :: l in labels;
      MergePresent(flags, init);
      assert labels[|labels| - 1] in labels;
    }
  }

  /** A dict after an in-place update, and the exception raised, if any. */
  datatype Outcome = Outcome(state: Entries, error: Option<Error>)

  /**
   * A dict the program mutates in place: callers holding the same object see
   * every `Set`.
   */
  class Dict {
    var entries: Entries

    constructor (entries: Entries)
      ensures this.entries == entries
    {
      this.entries := entries;
    }

    function Get(k: string, default: Value): Value
      reads this
    {
      GetOr(entries, k, default)
    }

    /** `self[k] = v`. */
    method Set(k: string, v: Value)
      modifies this
      ensures entries == Store(old(entries), k, v)
      ensures Lookup(entries, k) == Some(v)
    {
      StoreLookup(entries, k, v, k);
      entries := Store(entries, k, v);
    }
  }
}
