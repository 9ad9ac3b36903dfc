/** The comparison predicates behind `assert.ThatMap`. Each one either
    passes (`None`) or describes exactly one mismatch. Where several things
    are wrong, a fixed priority picks the reported one: length first, then a
    missing or unexpected key, then a differing value; among keys of the
    same kind, the smallest in the canonical order is reported. */
module Comparator {
  import opened Wrappers
  import opened GoMaps
  import opened StringOrder

  /** The two-map relations; each has its own reason sentence. */
  datatype Relation = EqualTo | Subset | Superset | SameKeys | SameValues

  /** Why a two-map relation does not hold. */
  datatype Diff =
    | LengthsDiffer
    | KeyMissing(key: string)
    | UnexpectedKey(key: string)
    | ValuesDifferAt(key: string)
    | ValuesDiffer

  /** What a failed assertion reports. */
  datatype Mismatch =
    | WantedLength(want: int, length: nat)
    | WantedNil
    | WantedNotNil
    | WantedEmpty
    | WantedNotEmpty
    | WantedDifferent
    | WantedKey(key: string)
    | UnwantedKey(key: string)
    | WantedValue(value: int)
    | UnwantedValue(value: int)
    | WantedEntry(key: string, want: int, got: int)
    | Unrelated(relation: Relation, diff: Diff, expected: GoMap)

  /** The index of the first element satisfying `p`, or `|xs|` if none does. */
  function FirstIndex<T>(xs: seq<T>, p: T -> bool): (i: nat)
    ensures i <= |xs|
    ensures i < |xs| ==> p(xs[i])
    ensures forall j :: 0 <= j < i ==> !p(xs[j])
    decreases |xs|
  {
    if |xs| == 0 then 0
    else if p(xs[0]) then 0
    else 1 + FirstIndex(xs[1..], p)
  }

  /** Scanning an ascending key list finds the smallest offending key. */
  lemma FirstIndexIsLeast(ks: seq<string>, p: string -> bool, s: set<string>)
    requires StrictlyIncreasing(ks)
    requires forall x :: x in s <==> x in ks && p(x)
    ensures FirstIndex(ks, p) < |ks| <==> s != {}
    ensures FirstIndex(ks, p) < |ks| ==> IsLeast(ks[FirstIndex(ks, p)], s)
  {
    var i := FirstIndex(ks, p);
    if i < |ks| {
      assert ks[i] in s;
      forall y | y in s
        ensures LessEq(ks[i], y)
      {
        var j :| 0 <= j < |ks| && ks[j] == y;
        assert p(ks[j]);
        assert i <= j;
        if i < j {
          assert Less(ks[i], ks[j]);
        }
      }
    }
  }

  /** Keys present on both sides with different values. */
  function DifferingKeys(inner: map<string, int>, outer: map<string, int>): set<string>
  {
    set k | k in inner && k in outer && inner[k] != outer[k]
  }

  /** The smallest key of `inner` that `outer` lacks. */
  function FirstAbsent(inner: map<string, int>, outer: map<string, int>): (r: Option<string>)
    ensures r.None? <==> inner.Keys <= outer.Keys
    ensures r.Some? ==> IsLeast(r.value, inner.Keys - outer.Keys)
  {
    var ks := Sorted(inner.Keys);
    var p := k => k !in outer;
    FirstIndexIsLeast(ks, p, inner.Keys - outer.Keys);
    var i := FirstIndex(ks, p);
    if i < |ks| then Some(ks[i]) else None
  }

  /** The smallest key whose values differ between `inner` and `outer`. */
  function FirstUnequal(inner: map<string, int>, outer: map<string, int>): (r: Option<string>)
    ensures r.None? <==> DifferingKeys(inner, outer) == {}
    ensures r.Some? ==> IsLeast(r.value, DifferingKeys(inner, outer))
  {
    var ks := Sorted(inner.Keys);
    var p := k => k in inner && k in outer && inner[k] != outer[k];
    FirstIndexIsLeast(ks, p, DifferingKeys(inner, outer));
    var i := FirstIndex(ks, p);
    if i < |ks| then Some(ks[i]) else None
  }

  /** Why `inner` is not contained in `outer`. */
  datatype Stray = Absent(key: string) | Unequal(key: string)

  /** The inclusion scan shared by Equal, SubsetOf and SupersetOf: every
      absent key outranks every differing value. */
  function FirstStray(inner: map<string, int>, outer: map<string, int>): (r: Option<Stray>)
    ensures r.None? <==> forall k :: k in inner ==> k in outer && inner[k] == outer[k]
    ensures r.Some? && r.value.Absent? <==> !(inner.Keys <= outer.Keys)
    ensures r.Some? && r.value.Absent? ==> IsLeast(r.value.key, inner.Keys - outer.Keys)
    ensures r.Some? && r.value.Unequal? ==> IsLeast(r.value.key, DifferingKeys(inner, outer))
  {
    match FirstAbsent(inner, outer)
    case Some(k) => Some(Absent(k))
    case None =>
      match FirstUnequal(inner, outer)
      case Some(k) =>
        assert k in DifferingKeys(inner, outer);
        Some(Unequal(k))
      case None =>
        assert forall k :: k in inner ==> k in outer && inner[k] == outer[k] by {
          forall k | k in inner
            ensures k in outer && inner[k] == outer[k]
          {
            assert k !in DifferingKeys(inner, outer);
          }
        }
        None
  }

  /** Two maps that agree on every key of each are the same map. */
  lemma SameEntries(m: map<string, int>, n: map<string, int>)
    requires forall k :: k in m ==> k in n && m[k] == n[k]
    requires forall k :: k in n ==> k in m
    ensures m == n
  {
    assert m.Keys == n.Keys;
  }

  lemma SameSizeSubsetIsEqual(s: set<string>, t: set<string>)
    requires s <= t && |s| == |t|
    ensures s == t
  {
    assert t == s + (t - s);
    assert |t - s| == 0;
  }

  // ---- single-map checks --------------------------------------------------

  function Length(a: GoMap, n: int): (r: Option<Mismatch>)
    ensures r.None? <==> |Entries(a).Keys| == n
    ensures r.Some? ==> r.value == WantedLength(n, Len(a))
  {
    if Len(a) == n then None else Some(WantedLength(n, Len(a)))
  }

  function Nil(a: GoMap): (r: Option<Mismatch>)
    ensures r.None? <==> a == None
    ensures r.Some? ==> r.value == WantedNil
  {
    if a.Some? then Some(WantedNil) else None
  }

  function NotNil(a: GoMap): (r: Option<Mismatch>)
    ensures r.None? <==> exists m :: a == Some(m)
    ensures r.Some? ==> r.value == WantedNotNil
  {
    if a.None? then Some(WantedNotNil) else None
  }

  /** Length only: the nil map is empty. */
  function Empty(a: GoMap): (r: Option<Mismatch>)
    ensures r.None? <==> a == None || a == Some(map[])
    ensures r.Some? ==> r.value == WantedEmpty
  {
    if Len(a) == 0 then None else Some(WantedEmpty)
  }

  /** Length only: both the nil map and `{}` fail. */
  function NotEmpty(a: GoMap): (r: Option<Mismatch>)
    ensures r.None? <==> exists k :: k in Entries(a)
    ensures r.Some? ==> r.value == WantedNotEmpty
  {
    if Len(a) > 0 then None
    else
      assert Entries(a) == map[];
      Some(WantedNotEmpty)
  }

  function ContainsKey(a: GoMap, k: string): (r: Option<Mismatch>)
    ensures r.None? <==> k in Entries(a).Keys
    ensures r.Some? ==> r.value == WantedKey(k)
  {
    if k in Entries(a) then None else Some(WantedKey(k))
  }

  function NotContainsKey(a: GoMap, k: string): (r: Option<Mismatch>)
    ensures r.None? <==> k !in Entries(a).Keys
    ensures r.Some? ==> r.value == UnwantedKey(k)
  {
    if k in Entries(a) then Some(UnwantedKey(k)) else None
  }

  function ContainsValue(a: GoMap, v: int): (r: Option<Mismatch>)
    ensures r.None? <==> exists k :: k in Entries(a) && Entries(a)[k] == v
    ensures r.Some? ==> r.value == WantedValue(v)
  {
    if v in Entries(a).Values then None else Some(WantedValue(v))
  }

  function NotContainsValue(a: GoMap, v: int): (r: Option<Mismatch>)
    ensures r.None? <==> forall k :: k in Entries(a) ==> Entries(a)[k] != v
    ensures r.Some? ==> r.value == UnwantedValue(v)
  {
    if v in Entries(a).Values then Some(UnwantedValue(v)) else None
  }

  /** A missing key is reported before a value mismatch, and with the same
      sentence as ContainsKey; a mismatch names both values. */
  function ContainsKeyValue(a: GoMap, k: string, v: int): (r: Option<Mismatch>)
    ensures r.None? <==> k in Entries(a) && Entries(a)[k] == v
    ensures k !in Entries(a) ==> r == ContainsKey(a, k)
    ensures k in Entries(a) && Entries(a)[k] != v ==> r == Some(WantedEntry(k, v, Entries(a)[k]))
  {
    var m := Entries(a);
    if k !in m then Some(WantedKey(k))
    else if m[k] != v then Some(WantedEntry(k, v, m[k]))
    else None
  }

  // ---- list checks: the first offending item in the given order ----------

  function ContainsKeys(a: GoMap, ks: seq<string>): (r: Option<Mismatch>)
    ensures r.None? <==> forall i :: 0 <= i < |ks| ==> ContainsKey(a, ks[i]).None?
    ensures r.Some? ==>
              exists i :: 0 <= i < |ks| && r == ContainsKey(a, ks[i]) &&
                forall j :: 0 <= j < i ==> ContainsKey(a, ks[j]).None?
  {
    var i := FirstIndex(ks, k => k !in Entries(a));
    if i < |ks| then Some(WantedKey(ks[i])) else None
  }

  function NotContainsKeys(a: GoMap, ks: seq<string>): (r: Option<Mismatch>)
    ensures r.None? <==> forall i :: 0 <= i < |ks| ==> NotContainsKey(a, ks[i]).None?
    ensures r.Some? ==>
              exists i :: 0 <= i < |ks| && r == NotContainsKey(a, ks[i]) &&
                forall j :: 0 <= j < i ==> NotContainsKey(a, ks[j]).None?
  {
    var i := FirstIndex(ks, k => k in Entries(a));
    if i < |ks| then Some(UnwantedKey(ks[i])) else None
  }

  function ContainsValues(a: GoMap, vs: seq<int>): (r: Option<Mismatch>)
    ensures r.None? <==> forall i :: 0 <= i < |vs| ==> ContainsValue(a, vs[i]).None?
    ensures r.Some? ==>
              exists i :: 0 <= i < |vs| && r == ContainsValue(a, vs[i]) &&
                forall j :: 0 <= j < i ==> ContainsValue(a, vs[j]).None?
  {
    var i := FirstIndex(vs, v => v !in Entries(a).Values);
    if i < |vs| then Some(WantedValue(vs[i])) else None
  }

  function NotContainsValues(a: GoMap, vs: seq<int>): (r: Option<Mismatch>)
    ensures r.None? <==> forall i :: 0 <= i < |vs| ==> NotContainsValue(a, vs[i]).None?
    ensures r.Some? ==>
              exists i :: 0 <= i < |vs| && r == NotContainsValue(a, vs[i]) &&
                forall j :: 0 <= j < i ==> NotContainsValue(a, vs[j]).None?
  {
    var i := FirstIndex(vs, v => v in Entries(a).Values);
    if i < |vs| then Some(UnwantedValue(vs[i])) else None
  }

  // ---- two-map relations ---------------------------------------------------

  /** Lengths first (a nil `expected` has length 0), then the smallest key of
      `actual` missing from `expected`, then the smallest key whose values
      differ. */
  function Equal(a: GoMap, e: GoMap): (r: Option<Diff>)
    ensures r.None? <==> Entries(a) == Entries(e)
    ensures r == Some(LengthsDiffer) <==> |Entries(a).Keys| != |Entries(e).Keys|
    ensures r.Some? ==> r.value.LengthsDiffer? || r.value.KeyMissing? || r.value.ValuesDifferAt?
    ensures r.Some? && r.value.KeyMissing? ==>
              IsLeast(r.value.key, Entries(a).Keys - Entries(e).Keys)
    ensures |Entries(a).Keys| == |Entries(e).Keys| && !(Entries(a).Keys <= Entries(e).Keys) ==>
              r.Some? && r.value.KeyMissing?
    ensures r.Some? && r.value.ValuesDifferAt? ==>
              Entries(a).Keys == Entries(e).Keys && IsLeast(r.value.key, DifferingKeys(Entries(a), Entries(e)))
  {
    var am, em := Entries(a), Entries(e);
    if |am| != |em| then Some(LengthsDiffer)
    else
      match FirstStray(am, em)
      case Some(Absent(k)) => Some(KeyMissing(k))
      case Some(Unequal(k)) =>
        SameSizeSubsetIsEqual(am.Keys, em.Keys);
        Some(ValuesDifferAt(k))
      case None =>
        SameSizeSubsetIsEqual(am.Keys, em.Keys);
        SameEntries(am, em);
        None
  }

  /** Fails exactly when Equal passes. */
  function NotEqual(a: GoMap, e: GoMap): (r: Option<Mismatch>)
    ensures r.None? <==> Entries(a) != Entries(e)
    ensures r.Some? ==> r.value == WantedDifferent
  {
    if Equal(a, e).None? then Some(WantedDifferent) else None
  }

  /** Scans the keys of `actual`: a key absent from `expected` is unexpected. */
  function SubsetOf(a: GoMap, e: GoMap): (r: Option<Diff>)
    ensures r.None? <==> forall k :: k in Entries(a) ==> k in Entries(e) && Entries(a)[k] == Entries(e)[k]
    ensures r.Some? ==> r.value.UnexpectedKey? || r.value.ValuesDifferAt?
    ensures r.Some? && r.value.UnexpectedKey? <==> !(Entries(a).Keys <= Entries(e).Keys)
    ensures r.Some? && r.value.UnexpectedKey? ==> IsLeast(r.value.key, Entries(a).Keys - Entries(e).Keys)
    ensures r.Some? && r.value.ValuesDifferAt? ==> IsLeast(r.value.key, DifferingKeys(Entries(a), Entries(e)))
  {
    match FirstStray(Entries(a), Entries(e))
    case None => None
    case Some(Absent(k)) => Some(UnexpectedKey(k))
    case Some(Unequal(k)) => Some(ValuesDifferAt(k))
  }

  /** Scans the keys of `expected`: a key absent from `actual` is missing. */
  function SupersetOf(a: GoMap, e: GoMap): (r: Option<Diff>)
    ensures r.None? <==> forall k :: k in Entries(e) ==> k in Entries(a) && Entries(e)[k] == Entries(a)[k]
    ensures r.Some? ==> r.value.KeyMissing? || r.value.ValuesDifferAt?
    ensures r.Some? && r.value.KeyMissing? <==> !(Entries(e).Keys <= Entries(a).Keys)
    ensures r.Some? && r.value.KeyMissing? ==> IsLeast(r.value.key, Entries(e).Keys - Entries(a).Keys)
    ensures r.Some? && r.value.ValuesDifferAt? ==> IsLeast(r.value.key, DifferingKeys(Entries(e), Entries(a)))
  {
    match FirstStray(Entries(e), Entries(a))
    case None => None
    case Some(Absent(k)) => Some(KeyMissing(k))
    case Some(Unequal(k)) => Some(ValuesDifferAt(k))
  }

  /** Values are ignored: lengths first, then the smallest key of `actual`
      missing from `expected`. */
  function HasSameKeys(a: GoMap, e: GoMap): (r: Option<Diff>)
    ensures r.None? <==> Entries(a).Keys == Entries(e).Keys
    ensures r == Some(LengthsDiffer) <==> |Entries(a).Keys| != |Entries(e).Keys|
    ensures r.Some? ==> r.value.LengthsDiffer? || r.value.KeyMissing?
    ensures r.Some? && r.value.KeyMissing? ==> IsLeast(r.value.key, Entries(a).Keys - Entries(e).Keys)
  {
    var am, em := Entries(a), Entries(e);
    if |am| != |em| then Some(LengthsDiffer)
    else
      match FirstAbsent(am, em)
      case Some(k) => Some(KeyMissing(k))
      case None =>
        SameSizeSubsetIsEqual(am.Keys, em.Keys);
        None
  }

  /** How many entries of `m` hold the value `v`: the multiplicity of `v`
      among the map's values. */
  function Count(m: map<string, int>, v: int): nat
  {
    |set k | k in m && m[k] == v|
  }

  /** The values at keys `ks`, in that order. */
  function ValuesAt(ks: seq<string>, m: map<string, int>): (vs: seq<int>)
    requires forall i :: 0 <= i < |ks| ==> ks[i] in m
    ensures |vs| == |ks|
    ensures forall i :: 0 <= i < |ks| ==> vs[i] == m[ks[i]]
  {
    seq(|ks|, i requires 0 <= i < |ks| => m[ks[i]])
  }

  /** The values of `m` with their multiplicities, keys forgotten. */
  function ValueBag(m: map<string, int>): multiset<int>
  {
    multiset(ValuesAt(Sorted(m.Keys), m))
  }

  /** The keys among `ks` whose value in `m` is `v`. */
  function KeysWithValue(ks: seq<string>, m: map<string, int>, v: int): set<string>
  {
    set k | k in ks && k in m && m[k] == v
  }

  lemma DistinctTail(ks: seq<string>)
    requires |ks| > 0 && Distinct(ks)
    ensures Distinct(ks[1..]) && ks[0] !in ks[1..]
  {
  }

  /** One more key adds one to the count exactly when its value is `v`. */
  lemma KeysWithValueCons(ks: seq<string>, m: map<string, int>, v: int)
    requires |ks| > 0 && ks[0] in m && ks[0] !in ks[1..]
    ensures |KeysWithValue(ks, m, v)| == (if m[ks[0]] == v then 1 else 0) + |KeysWithValue(ks[1..], m, v)|
  {
    assert ks == [ks[0]] + ks[1..];
    if m[ks[0]] == v {
      assert KeysWithValue(ks, m, v) == KeysWithValue(ks[1..], m, v) + {ks[0]};
    } else {
      assert KeysWithValue(ks, m, v) == KeysWithValue(ks[1..], m, v);
    }
  }

  /** The bag of `ValuesAt` grows by the value at the first key. */
  lemma ValuesAtCons(ks: seq<string>, m: map<string, int>, v: int)
    requires |ks| > 0 && forall i :: 0 <= i < |ks| ==> ks[i] in m
    ensures multiset(ValuesAt(ks, m))[v] == (if m[ks[0]] == v then 1 else 0) + multiset(ValuesAt(ks[1..], m))[v]
  {
    assert ValuesAt(ks, m) == [m[ks[0]]] + ValuesAt(ks[1..], m);
  }

  lemma {:induction false} ValuesAtCount(ks: seq<string>, m: map<string, int>, v: int)
    requires forall i :: 0 <= i < |ks| ==> ks[i] in m
    requires Distinct(ks)
    ensures multiset(ValuesAt(ks, m))[v] == |KeysWithValue(ks, m, v)|
    decreases |ks|
  {
    if |ks| > 0 {
      DistinctTail(ks);
      ValuesAtCount(ks[1..], m, v);
      ValuesAtCons(ks, m, v);
      KeysWithValueCons(ks, m, v);
    } else {
      assert KeysWithValue(ks, m, v) == {};
    }
  }

  /** The bag of values counts each value once per entry holding it. */
  lemma ValueBagCount(m: map<string, int>, v: int)
    ensures ValueBag(m)[v] == Count(m, v)
    ensures |ValueBag(m)| == |m|
  {
    var ks := Sorted(m.Keys);
    IncreasingDistinct(ks);
    ValuesAtCount(ks, m, v);
    assert KeysWithValue(ks, m, v) == set k | k in m && m[k] == v;
  }

  /** Two bags of values are equal exactly when every value occurs equally
      often; equal bags come from maps of equal length. */
  lemma SameBagSameCounts(m: map<string, int>, n: map<string, int>)
    ensures ValueBag(m) == ValueBag(n) <==> forall v :: Count(m, v) == Count(n, v)
    ensures ValueBag(m) == ValueBag(n) ==> |m| == |n|
  {
    ValueBagCount(m, 0);
    ValueBagCount(n, 0);
    if ValueBag(m) == ValueBag(n) {
      forall v
        ensures Count(m, v) == Count(n, v)
      {
        ValueBagCount(m, v);
        ValueBagCount(n, v);
      }
    }
    if forall v :: Count(m, v) == Count(n, v) {
      forall v
        ensures ValueBag(m)[v] == ValueBag(n)[v]
      {
        ValueBagCount(m, v);
        ValueBagCount(n, v);
      }
    }
  }

  /** Keys are ignored and duplicates matter: lengths first, then the two
      multisets of values; no single value is named. */
  function HasSameValues(a: GoMap, e: GoMap): (r: Option<Diff>)
    ensures r.None? <==> forall v :: Count(Entries(a), v) == Count(Entries(e), v)
    ensures r == Some(LengthsDiffer) <==> |Entries(a).Keys| != |Entries(e).Keys|
    ensures r.Some? ==> r.value.LengthsDiffer? || r.value.ValuesDiffer?
  {
    var am, em := Entries(a), Entries(e);
    SameBagSameCounts(am, em);
    if |am| != |em| then Some(LengthsDiffer)
    else if ValueBag(am) != ValueBag(em) then Some(ValuesDiffer)
    else None
  }

  // ---- properties relating the checks ----------------------------------

  /** Each negated check is the exact complement of its positive partner,
      the length check at zero is the emptiness check, and a key-value
      check passes only where both the key check and the value check do. */
  lemma Complements(a: GoMap, k: string, v: int)
    ensures Nil(a).None? <==> NotNil(a).Some?
    ensures Empty(a).None? <==> NotEmpty(a).Some?
    ensures Empty(a).None? <==> Length(a, 0).None?
    ensures ContainsKey(a, k).None? <==> NotContainsKey(a, k).Some?
    ensures ContainsValue(a, v).None? <==> NotContainsValue(a, v).Some?
    ensures ContainsKeyValue(a, k, v).None? ==> ContainsKey(a, k).None? && ContainsValue(a, v).None?
    ensures ContainsKeyValue(a, k, v).Some? && ContainsKey(a, k).None? ==>
              ContainsKeyValue(a, k, v).value.WantedEntry?
  {
  }

  /** The nil map counts as empty; only the Nil checks and the rendering
      tell it from `{}`. */
  lemma NilIsEmpty()
    ensures Empty(None).None? && Empty(Some(map[])).None?
    ensures NotEmpty(None).Some? && NotEmpty(Some(map[])).Some?
    ensures Nil(None).None? && Nil(Some(map[])).Some?
  {
  }

  /** Equal passes symmetrically although it scans only `actual`'s keys. */
  lemma EqualSymmetric(a: GoMap, e: GoMap)
    ensures Equal(a, e).None? <==> Equal(e, a).None?
    ensures Equal(a, e) == Some(LengthsDiffer) <==> Equal(e, a) == Some(LengthsDiffer)
  {
  }

  /** SubsetOf and SupersetOf are mirror images: `a` is a subset of `e`
      exactly when `e` is a superset of `a`, and they blame the same key,
      an unexpected key of one being a missing key of the other. */
  lemma SubsetSupersetDual(a: GoMap, e: GoMap)
    ensures SubsetOf(a, e).None? <==> SupersetOf(e, a).None?
    ensures SubsetOf(a, e).Some? ==>
              SupersetOf(e, a).Some? && SubsetOf(a, e).value.key == SupersetOf(e, a).value.key &&
              (SubsetOf(a, e).value.UnexpectedKey? <==> SupersetOf(e, a).value.KeyMissing?)
  {
  }

  /** Equal holds exactly when each side is a subset of the other. */
  lemma EqualIsMutualSubset(a: GoMap, e: GoMap)
    ensures Equal(a, e).None? <==> SubsetOf(a, e).None? && SubsetOf(e, a).None?
  {
    var am, em := Entries(a), Entries(e);
    if SubsetOf(a, e).None? && SubsetOf(e, a).None? {
      SameEntries(am, em);
    }
  }

  /** Equal maps have the same keys and the same values. */
  lemma EqualImpliesSameKeysAndValues(a: GoMap, e: GoMap)
    ensures Equal(a, e).None? ==> HasSameKeys(a, e).None? && HasSameValues(a, e).None?
  {
  }

  /** HasSameKeys looks at the key sets only: changing values on either
      side changes nothing, not even the reported key. */
  lemma SameKeysIgnoresValues(a: GoMap, e: GoMap, a': GoMap, e': GoMap)
    requires Entries(a).Keys == Entries(a').Keys && Entries(e).Keys == Entries(e').Keys
    ensures HasSameKeys(a, e) == HasSameKeys(a', e')
  {
    var am, em, am', em' := Entries(a), Entries(e), Entries(a'), Entries(e');
    assert |am| == |am.Keys| == |am'| && |em| == |em.Keys| == |em'|;
    assert FirstAbsent(am, em) == FirstAbsent(am', em');
  }

  /** HasSameValues looks at the bags of values only: which keys hold them
      does not matter. */
  lemma SameValuesIgnoresKeys(a: GoMap, e: GoMap, a': GoMap, e': GoMap)
    requires ValueBag(Entries(a)) == ValueBag(Entries(a')) && ValueBag(Entries(e)) == ValueBag(Entries(e'))
    ensures HasSameValues(a, e) == HasSameValues(a', e')
  {
    SameBagSameCounts(Entries(a), Entries(a'));
    SameBagSameCounts(Entries(e), Entries(e'));
    SameBagSameCounts(Entries(a), Entries(e));
    SameBagSameCounts(Entries(a'), Entries(e'));
  }

  /** How often a value occurs among the values of a two-entry map. */
  lemma CountPair(k1: string, v1: int, k2: string, v2: int, v: int)
    requires k1 != k2
    ensures Count(map[k1 := v1, k2 := v2], v) == (if v1 == v then 1 else 0) + (if v2 == v then 1 else 0)
  {
    var m := map[k1 := v1, k2 := v2];
    var s := set k | k in m && m[k] == v;
    if v1 == v && v2 == v {
      assert s == {k1, k2};
    } else if v1 == v {
      assert s == {k1};
    } else if v2 == v {
      assert s == {k2};
    } else {
      assert s == {};
    }
  }

  /** Duplicates matter: `{k1:v, k2:v}` has the same values as `{j1:v, j2:v}`
      but not as `{j1:v, j2:w}`, although `v` occurs in both. */
  lemma SameValuesCountsDuplicates(k1: string, k2: string, j1: string, j2: string, v: int, w: int)
    requires k1 != k2 && j1 != j2 && v != w
    ensures HasSameValues(Some(map[k1 := v, k2 := v]), Some(map[j1 := v, j2 := v])).None?
    ensures HasSameValues(Some(map[k1 := v, k2 := v]), Some(map[j1 := v, j2 := w])) == Some(ValuesDiffer)
  {
    var twice, again, once := map[k1 := v, k2 := v], map[j1 := v, j2 := v], map[j1 := v, j2 := w];
    forall u
      ensures Count(twice, u) == Count(again, u)
    {
      CountPair(k1, v, k2, v, u);
      CountPair(j1, v, j2, v, u);
    }
    CountPair(k1, v, k2, v, v);
    CountPair(j1, v, j2, w, v);
    assert twice.Keys == {k1, k2} && once.Keys == {j1, j2};
  }
}
