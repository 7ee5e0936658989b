/**
 * The reasoning engine wrapper: `generate` turns every outcome of a model
 * call into a string, and `generate_structured` cuts the outermost
 * `{ ... }` out of a reply and parses it, falling back to the caller's
 * schema. The model calls themselves are inputs here.
 */
module Engine {
  import opened Wrappers
  import opened Text
  import opened Py

  /** What one call to the remote model came back with. */
  datatype Attempt =
    | Reply(text: string)   // a first candidate with content
    | NoCandidate           // no candidate, or one without content
    | Raised(msg: string)   // an exception, with `str(e)`

  const Unavailable := "Unable to generate response. Please try again."

  /** The remote call raised an error reading as "model not found". */
  predicate NotFound(msg: string) {
    Contains(msg, "404") || Contains(Lower(msg), "not found")
  }

  /**
   * `generate`: `first` is the call to `modelName`; `retry` is the call to
   * `modelName + "-latest"`, made only after a not-found error on a name
   * without `-latest`.
   */
  function Generate(modelName: string, first: Attempt, retry: Attempt): (r: string)
  {
    match first
    case Reply(t) => t
    case NoCandidate => Unavailable
    case Raised(msg) =>
      if NotFound(msg) && !Contains(modelName, "-latest") && retry.Reply? then retry.text
      else "Error: " + msg
  }

  /**
   * `generate` never raises: it yields the reply text, the fixed notice, the
   * retry's text after a not-found error, or `"Error: "` and the message in
   * every other raising case.
   */
  lemma GenerateTotal(modelName: string, first: Attempt, retry: Attempt)
    ensures var r := Generate(modelName, first, retry);
      || (first.Reply? && r == first.text)
      || (first.NoCandidate? && r == Unavailable)
      || (first.Raised? && r == "Error: " + first.msg)
      || (first.Raised? && NotFound(first.msg) && !Contains(modelName, "-latest") && retry.Reply? && r == retry.text)
    ensures first.Reply? ==> Generate(modelName, first, retry) == first.text
    ensures first.NoCandidate? ==> Generate(modelName, first, retry) == Unavailable
    ensures first.Raised? && !(NotFound(first.msg) && !Contains(modelName, "-latest") && retry.Reply?) ==>
      Generate(modelName, first, retry) == "Error: " + first.msg
    ensures first.Raised? && NotFound(first.msg) && !Contains(modelName, "-latest") && retry.Reply? ==>
      Generate(modelName, first, retry) == retry.text
  {
  }

  /** The fallback model is tried only after a not-found error, and never twice. */
  lemma RetryOnlyWhenNotFound(modelName: string, first: Attempt, retry: Attempt, retry': Attempt)
    requires !(first.Raised? && NotFound(first.msg)) || Contains(modelName, "-latest")
    ensures Generate(modelName, first, retry) == Generate(modelName, first, retry')
  {
  }

  /**
   * `text[text.find(open):text.rfind(close) + 1]` when that slice is
   * non-empty, None otherwise.
   */
  function Bracketed(text: string, open: char, close: char): (r: Option<string>)
    requires open != close
    ensures r.Some? ==>
      && |r.value| >= 2 && r.value[0] == open && r.value[|r.value| - 1] == close
      && exists lo, hi :: Window(text, r.value, lo, hi, open, close)
  {
    var start := Find(text, open);
    var end := RFind(text, close) + 1;
    if start >= 0 && end > start then
      assert Window(text, text[start..end], start, end, open, close);
      Some(text[start..end])
    else
      None
  }

  /** Some `open` comes before some `close`. */
  predicate Paired(text: string, open: char, close: char) {
    exists i, j | 0 <= i < j < |text| :: text[i] == open && text[j] == close
  }

  /** A window is cut out exactly when an `open` precedes a `close`. */
  lemma BracketedIffPaired(text: string, open: char, close: char)
    requires open != close
    ensures Bracketed(text, open, close).Some? <==> Paired(text, open, close)
  {
    var start := Find(text, open);
    var last := RFind(text, close);
    if Paired(text, open, close) {
      var i, j :| 0 <= i < j < |text| && text[i] == open && text[j] == close;
      assert text[i] in text;
      assert text[j] in text;
      assert forall m | 0 <= m < start :: text[..start][m] == text[m];
      assert forall m | last < m < |text| :: text[last + 1..][m - last - 1] == text[m];
      assert start <= i && j <= last;
    }
    if Bracketed(text, open, close).Some? {
      assert text[start] == open && text[last] == close;
    }
  }

  /** `w` is `text[lo..hi]`, from the first `open` through the last `close`. */
  predicate Window(text: string, w: string, lo: int, hi: int, open: char, close: char) {
    && 0 <= lo < hi <= |text| && w == text[lo..hi]
    && open !in text[..lo] && close !in text[hi..]
  }

  /**
   * `generate_structured`: the outermost `{ ... }` of the reply parsed as a
   * JSON object, or `fallback` when there is none or it does not parse.
   */
  function GenerateStructured(rt: Runtime, reply: string, fallback: Entries): (r: Entries)
    ensures var w := Bracketed(reply, '{', '}');
      w.Some? && rt.loadsObject(w.value).Some? ==> r == rt.loadsObject(w.value).value
    ensures var w := Bracketed(reply, '{', '}');
      w.None? || rt.loadsObject(w.value).None? ==> r == fallback
  {
    match Bracketed(reply, '{', '}')
    case None => fallback
    case Some(json) =>
      match rt.loadsObject(json)
      case Some(d) => d
      case None => fallback
  }

  /** Without a `{` followed somewhere by a `}`, the schema comes back unchanged. */
  lemma StructuredFallback(rt: Runtime, reply: string, fallback: Entries)
    ensures !Paired(reply, '{', '}') ==> GenerateStructured(rt, reply, fallback) == fallback
  {
    BracketedIffPaired(reply, '{', '}');
  }

  /**
   * With a `{` followed somewhere by a `}`, the result is the parse of the
   * slice from the first `{` through the last `}` (the window, by
   * `PairedWindow`), or the schema when that slice does not parse.
   */
  lemma StructuredParse(rt: Runtime, reply: string, fallback: Entries)
    requires Paired(reply, '{', '}')
    ensures 0 <= Find(reply, '{') < RFind(reply, '}') + 1 <= |reply|
    ensures var w := reply[Find(reply, '{')..RFind(reply, '}') + 1];
      rt.loadsObject(w).Some? ==> GenerateStructured(rt, reply, fallback) == rt.loadsObject(w).value
    ensures var w := reply[Find(reply, '{')..RFind(reply, '}') + 1];
      rt.loadsObject(w).None? ==> GenerateStructured(rt, reply, fallback) == fallback
  {
    var lo, hi := Find(reply, '{'), RFind(reply, '}') + 1;
    BraceSlice(reply);
    StructuredOf(rt, reply, fallback, reply[lo..hi]);
  }

  /** A reply whose window is `w` yields the parse of `w`, or the schema when `w` does not parse. */
  lemma StructuredOf(rt: Runtime, reply: string, fallback: Entries, w: string)
    requires Bracketed(reply, '{', '}') == Some(w)
    ensures rt.loadsObject(w).Some? ==> GenerateStructured(rt, reply, fallback) == rt.loadsObject(w).value
    ensures rt.loadsObject(w).None? ==> GenerateStructured(rt, reply, fallback) == fallback
  {
  }

  /** `PairedWindow` for the braces of `generate_structured`. */
  lemma BraceSlice(reply: string)
    requires Paired(reply, '{', '}')
    ensures 0 <= Find(reply, '{') < RFind(reply, '}') + 1 <= |reply|
    ensures Bracketed(reply, '{', '}') == Some(reply[Find(reply, '{')..RFind(reply, '}') + 1])
  {
    PairedWindow(reply, '{', '}');
  }

  /** When an `open` precedes a `close`, the window is the slice from the first `open` through the last `close`. */
  lemma PairedWindow(text: string, open: char, close: char)
    requires open != close && Paired(text, open, close)
    ensures var lo, hi := Find(text, open), RFind(text, close) + 1;
      && 0 <= lo < hi <= |text| && Window(text, text[lo..hi], lo, hi, open, close)
      && Bracketed(text, open, close) == Some(text[lo..hi])
  {
    BracketedIffPaired(text, open, close);
  }
}
