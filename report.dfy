/**
 * The four-bucket result. A run records, rule after rule, at most one finding
 * per rule; `Collect` is the report such a run produces: each bucket holds the
 * findings of its severity, in recording order, with no deduplication, sorting
 * or capping. `Render` turns findings into the strings the engine returns.
 */
module Report {
  import opened Wrappers
  import opened Messages

  datatype Buckets<T> = Buckets(errors: seq<T>, warnings: seq<T>, criticalIssues: seq<T>, recommendations: seq<T>)
  {
    /** The bucket of one severity. */
    function In(s: Severity): seq<T> {
      match s
      case Error => errors
      case Warning => warnings
      case Critical => criticalIssues
      case Recommendation => recommendations
    }

    /** `result.<bucket>.push(x)`. */
    function Push(s: Severity, x: T): (r: Buckets<T>)
      ensures r.In(s) == In(s) + [x]
      ensures forall t :: t != s ==> r.In(t) == In(t)
    {
      match s
      case Error => this.(errors := errors + [x])
      case Warning => this.(warnings := warnings + [x])
      case Critical => this.(criticalIssues := criticalIssues + [x])
      case Recommendation => this.(recommendations := recommendations + [x])
    }
  }

  /** The findings of severity `s` among the recorded outcomes, in order. */
  function Select(fs: seq<Option<Message>>, s: Severity): seq<Message> {
    if fs == [] then []
    else
      var last := fs[|fs| - 1];
      Select(fs[..|fs| - 1], s) + (if last.Some? && SeverityOf(last.value) == s then [last.value] else [])
  }

  function Collect(fs: seq<Option<Message>>): Buckets<Message> {
    Buckets(Select(fs, Error), Select(fs, Warning), Select(fs, Critical), Select(fs, Recommendation))
  }

  function Texts(ms: seq<Message>): (ts: seq<string>)
    ensures |ts| == |ms|
  {
    if ms == [] then [] else Texts(ms[..|ms| - 1]) + [Text(ms[|ms| - 1])]
  }

  function Render(r: Buckets<Message>): Buckets<string> {
    Buckets(Texts(r.errors), Texts(r.warnings), Texts(r.criticalIssues), Texts(r.recommendations))
  }

  /** Recording one more outcome pushes its message's text to its bucket, and only then. */
  function Recorded(r: Buckets<string>, f: Option<Message>): Buckets<string> {
    if f.Some? then r.Push(SeverityOf(f.value), Text(f.value)) else r
  }

  /** A finding is in a bucket exactly when its severity is that bucket's and some rule recorded it. */
  lemma {:induction false} InSelect(fs: seq<Option<Message>>, s: Severity, m: Message)
    ensures m in Select(fs, s) <==> SeverityOf(m) == s && Some(m) in fs
  {
    if fs != [] {
      var init := fs[..|fs| - 1];
      InSelect(init, s, m);
      assert fs == init + [fs[|fs| - 1]];
    }
  }

  /** A severity that no recorded finding has leaves its bucket empty. */
  lemma SelectEmpty(fs: seq<Option<Message>>, s: Severity)
    requires forall i :: 0 <= i < |fs| && fs[i].Some? ==> SeverityOf(fs[i].value) != s
    ensures Select(fs, s) == []
  {
    if Select(fs, s) != [] {
      var m := Select(fs, s)[0];
      InSelect(fs, s, m);
    }
  }

  lemma TextsSnoc(ms: seq<Message>, m: Message)
    ensures Texts(ms + [m]) == Texts(ms) + [Text(m)]
  {
    var ms' := ms + [m];
    assert ms'[..|ms'| - 1] == ms;
  }

  lemma SelectSnoc(fs: seq<Option<Message>>, f: Option<Message>, s: Severity)
    ensures Select(fs + [f], s) == Select(fs, s) + (if f.Some? && SeverityOf(f.value) == s then [f.value] else [])
  {
    var g := fs + [f];
    assert g[..|g| - 1] == fs;
  }

  /** The rendered bucket of severity `s` after one more outcome. */
  lemma RenderedSnoc(fs: seq<Option<Message>>, f: Option<Message>, s: Severity)
    ensures Texts(Select(fs + [f], s)) ==
      Texts(Select(fs, s)) + (if f.Some? && SeverityOf(f.value) == s then [Text(f.value)] else [])
  {
    SelectSnoc(fs, f, s);
    if f.Some? && SeverityOf(f.value) == s {
      TextsSnoc(Select(fs, s), f.value);
    } else {
      assert Select(fs + [f], s) == Select(fs, s);
    }
  }

  /** Rendering the report of one more outcome is recording that outcome on the rendered report. */
  lemma CollectSnoc(fs: seq<Option<Message>>, f: Option<Message>)
    ensures Render(Collect(fs + [f])) == Recorded(Render(Collect(fs)), f)
  {
    RenderedSnoc(fs, f, Error);
    RenderedSnoc(fs, f, Warning);
    RenderedSnoc(fs, f, Critical);
    RenderedSnoc(fs, f, Recommendation);
  }

  /** Rendering is element by element: entry `i` of a rendered bucket is the text of finding `i`. */
  lemma {:induction false} TextsAt(ms: seq<Message>, i: nat)
    requires i < |ms|
    ensures Texts(ms)[i] == Text(ms[i])
  {
    if i < |ms| - 1 {
      TextsAt(ms[..|ms| - 1], i);
    }
  }

  /** The findings of a prefix of the outcomes are a prefix of the findings of all of them. */
  lemma {:induction false} SelectPrefix(fs: seq<Option<Message>>, j: nat, s: Severity)
    requires j <= |fs|
    ensures Select(fs[..j], s) <= Select(fs, s)
    decreases |fs|
  {
    if j < |fs| {
      var init := fs[..|fs| - 1];
      assert init[..j] == fs[..j];
      SelectPrefix(init, j, s);
    } else {
      assert fs[..j] == fs;
    }
  }

  /** A bucket holds a message no more often than the outcomes record it. */
  lemma {:induction false} SelectOccurrences(fs: seq<Option<Message>>, s: Severity, m: Message)
    ensures multiset(Select(fs, s))[m] <= multiset(fs)[Some(m)]
  {
    if fs != [] {
      SelectOccurrences(fs[..|fs| - 1], s, m);
      SelectOccurrencesStep(fs, s, m);
    }
  }

  /** The last outcome adds one to a bucket's count of `m` at most, and only when it is `m`. */
  lemma SelectOccurrencesStep(fs: seq<Option<Message>>, s: Severity, m: Message)
    requires fs != []
    ensures multiset(Select(fs, s))[m] <=
      multiset(Select(fs[..|fs| - 1], s))[m] + (if fs[|fs| - 1] == Some(m) then 1 else 0)
    ensures multiset(fs)[Some(m)] ==
      multiset(fs[..|fs| - 1])[Some(m)] + (if fs[|fs| - 1] == Some(m) then 1 else 0)
  {
    var init, last := fs[..|fs| - 1], fs[|fs| - 1];
    assert fs == init + [last];
    assert multiset(fs) == multiset(init) + multiset{last};
    if last.Some? && SeverityOf(last.value) == s {
      assert Select(fs, s) == Select(init, s) + [last.value];
      assert multiset(Select(fs, s)) == multiset(Select(init, s)) + multiset{last.value};
    } else {
      assert Select(fs, s) == Select(init, s);
    }
  }

  /** A value held at one position at most occurs at most once. */
  lemma {:induction false} AtMostOnce<T>(xs: seq<T>, v: T)
    requires forall i, j :: 0 <= i < |xs| && 0 <= j < |xs| && xs[i] == v && xs[j] == v ==> i == j
    ensures multiset(xs)[v] <= 1
  {
    if xs != [] {
      var init := xs[..|xs| - 1];
      assert xs == init + [xs[|xs| - 1]];
      AtMostOnce(init, v);
    }
  }

  /** The four buckets together hold at most one finding per recorded outcome. */
  lemma {:induction false} CollectSize(fs: seq<Option<Message>>)
    ensures |Select(fs, Error)| + |Select(fs, Warning)| + |Select(fs, Critical)| + |Select(fs, Recommendation)| <= |fs|
  {
    if fs != [] {
      CollectSize(fs[..|fs| - 1]);
    }
  }
}
