/** The fluent front end `assert.ThatMap(t, m)`: it binds one captured map
    to a severity, runs each chained check and, on a mismatch, hands one
    diagnostic to the failure sink. The sink is modelled as the log of
    reports it received; aborting the test on `fatal` is the sink's business
    and is not modelled. */
module Chain {
  import opened Wrappers
  import opened GoMaps
  import C = Comparator
  import opened Reporter

  /** One chained check with its arguments. */
  datatype Op =
    | Length(n: int)
    | Nil
    | NotNil
    | Empty
    | NotEmpty
    | Equal(expected: GoMap)
    | NotEqual(expected: GoMap)
    | ContainsKey(key: string)
    | NotContainsKey(key: string)
    | ContainsValue(value: int)
    | NotContainsValue(value: int)
    | ContainsKeyValue(key: string, value: int)
    | ContainsKeys(keys: seq<string>)
    | NotContainsKeys(keys: seq<string>)
    | ContainsValues(values: seq<int>)
    | NotContainsValues(values: seq<int>)
    | SubsetOf(expected: GoMap)
    | SupersetOf(expected: GoMap)
    | HasSameKeys(expected: GoMap)
    | HasSameValues(expected: GoMap)
  {
    /** The checks that compare two maps and print the expected one. */
    predicate ShowsExpected()
    {
      Equal? || SubsetOf? || SupersetOf? || HasSameKeys? || HasSameValues?
    }
  }

  /** A two-map relation's outcome as a mismatch carrying `expected`. */
  function Against(rel: C.Relation, d: Option<C.Diff>, e: GoMap): Option<C.Mismatch>
  {
    match d
    case None => None
    case Some(diff) => Some(C.Unrelated(rel, diff, e))
  }

  /** When a chained check passes, said of the entries a Go program sees
      and independently of how each comparator scans them. */
  ghost predicate Holds(a: GoMap, op: Op)
  {
    var m := Entries(a);
    match op
    case Length(n) => |m| == n
    case Nil => a.None?
    case NotNil => a.Some?
    case Empty => m == map[]
    case NotEmpty => m != map[]
    case Equal(e) => m == Entries(e)
    case NotEqual(e) => m != Entries(e)
    case ContainsKey(k) => k in m
    case NotContainsKey(k) => k !in m
    case ContainsValue(v) => v in m.Values
    case NotContainsValue(v) => v !in m.Values
    case ContainsKeyValue(k, v) => (k, v) in m.Items
    case ContainsKeys(ks) => forall k :: k in ks ==> k in m
    case NotContainsKeys(ks) => forall k :: k in ks ==> k !in m
    case ContainsValues(vs) => forall v :: v in vs ==> v in m.Values
    case NotContainsValues(vs) => forall v :: v in vs ==> v !in m.Values
    case SubsetOf(e) => m.Items <= Entries(e).Items
    case SupersetOf(e) => Entries(e).Items <= m.Items
    case HasSameKeys(e) => m.Keys == Entries(e).Keys
    case HasSameValues(e) => forall v :: C.Count(m, v) == C.Count(Entries(e), v)
  }

  /** Entry inclusion, said of the key-value pairs. */
  lemma ItemsIncluded(m: map<string, int>, n: map<string, int>)
    ensures m.Items <= n.Items <==> forall k :: k in m ==> k in n && m[k] == n[k]
  {
    if m.Items <= n.Items {
      forall k | k in m
        ensures k in n && m[k] == n[k]
      {
        assert (k, m[k]) in m.Items;
      }
    }
    if forall k :: k in m ==> k in n && m[k] == n[k] {
      forall p | p in m.Items
        ensures p in n.Items
      {
        assert p.0 in m && m[p.0] == p.1;
        assert (p.0, n[p.0]) in n.Items;
      }
    }
  }

  lemma EmptyHolds(a: GoMap)
    ensures C.Empty(a).None? <==> Entries(a) == map[]
    ensures C.NotEmpty(a).None? <==> Entries(a) != map[]
  {
  }

  lemma ValueHolds(a: GoMap, v: int)
    ensures C.ContainsValue(a, v).None? <==> v in Entries(a).Values
    ensures C.NotContainsValue(a, v).None? <==> v !in Entries(a).Values
  {
    var m := Entries(a);
    if v in m.Values {
      var k :| k in m && m[k] == v;
    }
  }

  lemma EntryHolds(a: GoMap, k: string, v: int)
    ensures C.ContainsKeyValue(a, k, v).None? <==> (k, v) in Entries(a).Items
  {
    var m := Entries(a);
    if (k, v) in m.Items {
      assert k in m && m[k] == v;
    }
  }

  lemma KeysHold(a: GoMap, ks: seq<string>)
    ensures C.ContainsKeys(a, ks).None? <==> forall k :: k in ks ==> k in Entries(a)
    ensures C.NotContainsKeys(a, ks).None? <==> forall k :: k in ks ==> k !in Entries(a)
  {
  }

  lemma ValuesHold(a: GoMap, vs: seq<int>)
    ensures C.ContainsValues(a, vs).None? <==> forall v :: v in vs ==> v in Entries(a).Values
    ensures C.NotContainsValues(a, vs).None? <==> forall v :: v in vs ==> v !in Entries(a).Values
  {
    forall v | v in vs
      ensures C.ContainsValue(a, v).None? <==> v in Entries(a).Values
      ensures C.NotContainsValue(a, v).None? <==> v !in Entries(a).Values
    {
      ValueHolds(a, v);
    }
    forall i | 0 <= i < |vs|
      ensures C.ContainsValue(a, vs[i]).None? <==> vs[i] in Entries(a).Values
      ensures C.NotContainsValue(a, vs[i]).None? <==> vs[i] !in Entries(a).Values
    {
      ValueHolds(a, vs[i]);
    }
  }

  // The pass conditions of the two-map relations, one fact each.

  lemma EqualHolds(a: GoMap, e: GoMap)
    ensures C.Equal(a, e).None? <==> Entries(a) == Entries(e)
  {
  }

  lemma SubsetHolds(a: GoMap, e: GoMap)
    ensures C.SubsetOf(a, e).None? <==> Entries(a).Items <= Entries(e).Items
  {
    ItemsIncluded(Entries(a), Entries(e));
  }

  lemma SupersetHolds(a: GoMap, e: GoMap)
    ensures C.SupersetOf(a, e).None? <==> Entries(e).Items <= Entries(a).Items
  {
    ItemsIncluded(Entries(e), Entries(a));
  }

  lemma SameKeysHolds(a: GoMap, e: GoMap)
    ensures C.HasSameKeys(a, e).None? <==> Entries(a).Keys == Entries(e).Keys
  {
  }

  lemma SameValuesHolds(a: GoMap, e: GoMap)
    ensures C.HasSameValues(a, e).None? <==> forall v :: C.Count(Entries(a), v) == C.Count(Entries(e), v)
  {
  }

  /** Runs one check against the captured map. */
  function Check(a: GoMap, op: Op): Option<C.Mismatch>
  {
    match op
    case Length(n) => C.Length(a, n)
    case Nil => C.Nil(a)
    case NotNil => C.NotNil(a)
    case Empty => C.Empty(a)
    case NotEmpty => C.NotEmpty(a)
    case Equal(e) => Against(C.EqualTo, C.Equal(a, e), e)
    case NotEqual(e) => C.NotEqual(a, e)
    case ContainsKey(k) => C.ContainsKey(a, k)
    case NotContainsKey(k) => C.NotContainsKey(a, k)
    case ContainsValue(v) => C.ContainsValue(a, v)
    case NotContainsValue(v) => C.NotContainsValue(a, v)
    case ContainsKeyValue(k, v) => C.ContainsKeyValue(a, k, v)
    case ContainsKeys(ks) => C.ContainsKeys(a, ks)
    case NotContainsKeys(ks) => C.NotContainsKeys(a, ks)
    case ContainsValues(vs) => C.ContainsValues(a, vs)
    case NotContainsValues(vs) => C.NotContainsValues(a, vs)
    case SubsetOf(e) => Against(C.Subset, C.SubsetOf(a, e), e)
    case SupersetOf(e) => Against(C.Superset, C.SupersetOf(a, e), e)
    case HasSameKeys(e) => Against(C.SameKeys, C.HasSameKeys(a, e), e)
    case HasSameValues(e) => Against(C.SameValues, C.HasSameValues(a, e), e)
  }

  /** Every chained check passes exactly when it holds of the captured
      map's entries. */
  lemma CheckHolds(a: GoMap, op: Op)
    ensures Check(a, op).None? <==> Holds(a, op)
  {
    if op.ShowsExpected() {
      RelationsHold(a, op);
    } else if op.ContainsKeys? || op.NotContainsKeys? || op.ContainsValues? || op.NotContainsValues? {
      ListsHold(a, op);
    } else {
      SingleChecksHold(a, op);
    }
  }

  lemma RelationsHold(a: GoMap, op: Op)
    requires op.ShowsExpected()
    ensures Check(a, op).None? <==> Holds(a, op)
  {
    match op
    case Equal(e) => EqualHolds(a, e); AgainstCarries(C.EqualTo, C.Equal(a, e), e);
    case SubsetOf(e) => SubsetHolds(a, e); AgainstCarries(C.Subset, C.SubsetOf(a, e), e);
    case SupersetOf(e) => SupersetHolds(a, e); AgainstCarries(C.Superset, C.SupersetOf(a, e), e);
    case HasSameKeys(e) => SameKeysHolds(a, e); AgainstCarries(C.SameKeys, C.HasSameKeys(a, e), e);
    case HasSameValues(e) => SameValuesHolds(a, e); AgainstCarries(C.SameValues, C.HasSameValues(a, e), e);
  }

  lemma ListsHold(a: GoMap, op: Op)
    requires op.ContainsKeys? || op.NotContainsKeys? || op.ContainsValues? || op.NotContainsValues?
    ensures Check(a, op).None? <==> Holds(a, op)
  {
    match op
    case ContainsKeys(ks) => KeysHold(a, ks);
    case NotContainsKeys(ks) => KeysHold(a, ks);
    case ContainsValues(vs) => ValuesHold(a, vs);
    case NotContainsValues(vs) => ValuesHold(a, vs);
  }

  lemma SingleChecksHold(a: GoMap, op: Op)
    requires !op.ShowsExpected()
    requires !(op.ContainsKeys? || op.NotContainsKeys? || op.ContainsValues? || op.NotContainsValues?)
    ensures Check(a, op).None? <==> Holds(a, op)
  {
    match op
    case Length(n) =>
    case Nil =>
    case NotNil =>
    case Empty => EmptyHolds(a);
    case NotEmpty => EmptyHolds(a);
    case NotEqual(e) =>
    case ContainsKey(k) =>
    case NotContainsKey(k) =>
    case ContainsValue(v) => ValueHolds(a, v);
    case NotContainsValue(v) => ValueHolds(a, v);
    case ContainsKeyValue(k, v) => EntryHolds(a, k, v);
  }

  /** Apart from `Nil` and `NotNil`, every check treats the nil map as `{}`:
      the same verdict and the same mismatch. */
  lemma NilLikeEmpty(op: Op)
    requires !op.Nil? && !op.NotNil?
    ensures Check(None, op) == Check(Some(map[]), op)
  {
    assert Entries(None) == Entries(Some(map[]));
  }

  lemma SingleMapChecksHideExpected(a: GoMap, op: Op)
    requires !op.ShowsExpected()
    ensures Check(a, op).Some? ==> !Check(a, op).value.Unrelated?
  {
    match op {
      case Length(n) =>
      case Nil =>
      case NotNil =>
      case Empty =>
      case NotEmpty =>
      case NotEqual(e) =>
      case ContainsKey(k) =>
      case NotContainsKey(k) =>
      case ContainsValue(v) =>
      case NotContainsValue(v) =>
      case ContainsKeyValue(k, v) =>
      case ContainsKeys(ks) =>
      case NotContainsKeys(ks) =>
      case ContainsValues(vs) =>
      case NotContainsValues(vs) =>
    }
  }

  /** A relation's failure carries the map it was given. */
  lemma AgainstCarries(rel: C.Relation, d: Option<C.Diff>, e: GoMap)
    ensures Against(rel, d, e).Some? <==> d.Some?
    ensures Against(rel, d, e).Some? ==> Against(rel, d, e).value == C.Unrelated(rel, d.value, e)
  {
  }

  lemma RelationsShowExpected(a: GoMap, op: Op)
    requires op.ShowsExpected()
    ensures Check(a, op).Some? ==> Check(a, op).value.Unrelated? && Check(a, op).value.expected == op.expected
  {
    var e := op.expected;
    var d := if op.Equal? then C.Equal(a, e)
             else if op.SubsetOf? then C.SubsetOf(a, e)
             else if op.SupersetOf? then C.SupersetOf(a, e)
             else if op.HasSameKeys? then C.HasSameKeys(a, e)
             else C.HasSameValues(a, e);
    var rel := if op.Equal? then C.EqualTo
               else if op.SubsetOf? then C.Subset
               else if op.SupersetOf? then C.Superset
               else if op.HasSameKeys? then C.SameKeys
               else C.SameValues;
    assert Check(a, op) == Against(rel, d, e);
    AgainstCarries(rel, d, e);
  }

  /** Only the two-map relations print an `expected:` line, and it shows the
      map the check was given. */
  lemma CheckShowsExpected(a: GoMap, op: Op)
    ensures Check(a, op).Some? ==> (Check(a, op).value.Unrelated? <==> op.ShowsExpected())
    ensures Check(a, op).Some? && Check(a, op).value.Unrelated? ==> Check(a, op).value.expected == op.expected
  {
    if op.ShowsExpected() {
      RelationsShowExpected(a, op);
    } else {
      SingleMapChecksHideExpected(a, op);
    }
  }

  /** NotEqual, although it takes a second map, prints no `expected:` line,
      and it fails exactly when Equal passes. */
  lemma NotEqualNegatesEqual(a: GoMap, e: GoMap)
    ensures Check(a, NotEqual(e)).None? <==> Check(a, Equal(e)).Some?
    ensures Check(a, NotEqual(e)).Some? ==> !Check(a, NotEqual(e)).value.Unrelated?
  {
    assert Check(a, NotEqual(e)) == C.NotEqual(a, e);
    assert Check(a, Equal(e)) == Against(C.EqualTo, C.Equal(a, e), e);
  }

  /** What the failure sink receives. */
  datatype Report = Report(severity: Severity, text: string)

  /** The chain: the captured map, the current severity and every report
      the sink has received so far. */
  datatype Assertion = Assertion(actual: GoMap, severity: Severity, log: seq<Report>)

  /** `assert.ThatMap(t, m)`: a fresh chain reporting at `error`. */
  function ThatMap(a: GoMap): (c: Assertion)
    ensures c.actual == a && c.severity == Error && c.log == []
  {
    Assertion(a, Error, [])
  }

  /** `Must()`: later failures are reported as `fatal`. */
  function Must(c: Assertion): (c': Assertion)
    ensures c'.severity == Fatal
    ensures c'.actual == c.actual && c'.log == c.log
  {
    c.(severity := Fatal)
  }

  /** Hands the outcome of one check to the sink: a pass leaves no trace, a
      mismatch adds exactly one report at the chain's severity. */
  function Record(c: Assertion, outcome: Option<C.Mismatch>, msg: Option<string>): (c': Assertion)
    ensures c'.actual == c.actual && c'.severity == c.severity
    ensures outcome.None? <==> c'.log == c.log
    ensures outcome.Some? ==>
              && |c'.log| == |c.log| + 1
              && c'.log[..|c.log|] == c.log
              && c'.log[|c.log|].severity == c.severity
              && c'.log[|c.log|].text == Diagnostic(c.severity, outcome.value, c.actual, msg)
  {
    match outcome
    case None => c
    case Some(mm) => c.(log := c.log + [Report(c.severity, Diagnostic(c.severity, mm, c.actual, msg))])
  }

  /** One chained call with an optional message. A pass leaves no trace; a
      failure adds exactly one report at the chain's severity, whose first
      line names that severity. */
  function Apply(c: Assertion, op: Op, msg: Option<string>): (c': Assertion)
    ensures c'.actual == c.actual && c'.severity == c.severity
    ensures Check(c.actual, op).None? <==> c'.log == c.log
    ensures Check(c.actual, op).Some? ==>
              && |c'.log| == |c.log| + 1
              && c'.log[..|c.log|] == c.log
              && c'.log[|c.log|].severity == c.severity
              && c'.log[|c.log|].text == Diagnostic(c.severity, Check(c.actual, op).value, c.actual, msg)
  {
    Record(c, Check(c.actual, op), msg)
  }

  /** Escalation is idempotent and one-way. */
  lemma MustIdempotent(c: Assertion)
    ensures Must(Must(c)) == Must(c)
    ensures forall op, msg :: Apply(Must(c), op, msg).severity == Fatal
  {
  }

  /** A step of a chain: `Must()` or a check with its optional message. */
  datatype Step = Escalate | Assert(op: Op, msg: Option<string>)

  /** Applies one step. */
  function Do(c: Assertion, s: Step): (c': Assertion)
    ensures c'.actual == c.actual
    ensures c'.severity == Fatal <==> c.severity == Fatal || s.Escalate?
    ensures |c'.log| == |c.log| + (if s.Assert? && Check(c.actual, s.op).Some? then 1 else 0)
    ensures c'.log[..|c.log|] == c.log
    ensures forall i :: |c.log| <= i < |c'.log| ==> c'.log[i].severity == c.severity
  {
    match s
    case Escalate => Must(c)
    case Assert(op, msg) => Apply(c, op, msg)
  }

  /** How many of the checks in `steps` fail on `a`. */
  function Failures(a: GoMap, steps: seq<Step>): nat
    decreases |steps|
  {
    if |steps| == 0 then 0
    else (if steps[0].Assert? && Check(a, steps[0].op).Some? then 1 else 0) + Failures(a, steps[1..])
  }

  lemma FailuresSnoc(a: GoMap, steps: seq<Step>, s: Step)
    ensures Failures(a, steps + [s]) ==
            Failures(a, steps) + (if s.Assert? && Check(a, s.op).Some? then 1 else 0)
    decreases |steps|
  {
    if |steps| > 0 {
      assert (steps + [s])[1..] == steps[1..] + [s];
      FailuresSnoc(a, steps[1..], s);
    }
  }

  /** Runs a whole chain. Failures accumulate: each failing check adds one
      report and nothing is ever removed; if the chain starts `fatal`, every
      new report is `fatal`, and the chain ends `fatal` exactly when it
      started so or escalated. */
  method Run(c: Assertion, steps: seq<Step>) returns (c': Assertion)
    ensures c'.actual == c.actual
    ensures c'.severity == Fatal <==> c.severity == Fatal || Escalate in steps
    ensures |c'.log| == |c.log| + Failures(c.actual, steps)
    ensures c'.log[..|c.log|] == c.log
    ensures c.severity == Fatal ==> forall i :: |c.log| <= i < |c'.log| ==> c'.log[i].severity == Fatal
  {
    c' := c;
    var i := 0;
    while i < |steps|
      invariant 0 <= i <= |steps|
      invariant c'.actual == c.actual
      invariant c'.severity == Fatal <==> c.severity == Fatal || Escalate in steps[..i]
      invariant |c'.log| == |c.log| + Failures(c.actual, steps[..i])
      invariant c'.log[..|c.log|] == c.log
      invariant c.severity == Fatal ==> forall j :: |c.log| <= j < |c'.log| ==> c'.log[j].severity == Fatal
    {
      assert steps[..i + 1] == steps[..i] + [steps[i]];
      FailuresSnoc(c.actual, steps[..i], steps[i]);
      c' := Do(c', steps[i]);
      i := i + 1;
    }
    assert steps[..i] == steps;
  }
}
