/** The canonical order on map keys. Go compares strings byte by byte; on
    Unicode scalar values, comparing code points gives the same order as
    comparing UTF-8 encodings, so the model compares characters. */
module StringOrder {

  /** Strict lexicographic order: a proper prefix comes first. */
  predicate Less(a: string, b: string)
    decreases |a|
  {
    if |a| == 0 then |b| > 0
    else |b| > 0 && (a[0] < b[0] || (a[0] == b[0] && Less(a[1..], b[1..])))
  }

  predicate LessEq(a: string, b: string)
  {
    a == b || Less(a, b)
  }

  lemma {:induction false} LessIrreflexive(a: string)
    ensures !Less(a, a)
    decreases |a|
  {
    if |a| > 0 {
      LessIrreflexive(a[1..]);
    }
  }

  lemma {:induction false} LessTransitive(a: string, b: string, c: string)
    requires Less(a, b) && Less(b, c)
    ensures Less(a, c)
    decreases |a|
  {
    if |a| > 0 && a[0] == c[0] {
      assert a[0] == b[0] && b[0] == c[0];
      LessTransitive(a[1..], b[1..], c[1..]);
    }
  }

  lemma {:induction false} LessTotal(a: string, b: string)
    requires a != b
    ensures Less(a, b) || Less(b, a)
    decreases |a|
  {
    if |a| > 0 && |b| > 0 && a[0] == b[0] {
      assert a == [a[0]] + a[1..] && b == [b[0]] + b[1..];
      LessTotal(a[1..], b[1..]);
    }
  }

  lemma LessAsymmetric(a: string, b: string)
    requires Less(a, b)
    ensures !Less(b, a)
  {
    if Less(b, a) {
      LessTransitive(a, b, a);
      LessIrreflexive(a);
    }
  }

  /** `x` is the smallest element of `s`. */
  predicate IsLeast(x: string, s: set<string>)
  {
    x in s && forall y :: y in s ==> LessEq(x, y)
  }

  lemma LeastUnique(x: string, x': string, s: set<string>)
    requires IsLeast(x, s) && IsLeast(x', s)
    ensures x == x'
  {
    if x != x' {
      assert Less(x, x') && Less(x', x);
      LessAsymmetric(x, x');
    }
  }

  lemma {:induction false} LeastExists(s: set<string>)
    requires s != {}
    ensures exists x :: IsLeast(x, s)
    decreases |s|
  {
    var z :| z in s;
    if s == {z} {
      assert IsLeast(z, s);
    } else {
      var rest := s - {z};
      LeastExists(rest);
      var x :| IsLeast(x, rest);
      if Less(z, x) {
        forall y | y in s
          ensures LessEq(z, y)
        {
          if y != z && y != x {
            assert y in rest;
            LessTransitive(z, x, y);
          }
        }
        assert IsLeast(z, s);
      } else {
        LessTotal(x, z);
        assert IsLeast(x, s);
      }
    }
  }

  /** The smallest element of a non-empty set of keys. */
  function Least(s: set<string>): (x: string)
    requires s != {}
    ensures IsLeast(x, s)
  {
    LeastExists(s);
    assert forall x, x' :: IsLeast(x, s) && IsLeast(x', s) ==> x == x' by {
      forall x, x' | IsLeast(x, s) && IsLeast(x', s)
        ensures x == x'
      {
        LeastUnique(x, x', s);
      }
    }
    var x :| IsLeast(x, s);
    x
  }

  predicate StrictlyIncreasing(r: seq<string>)
  {
    forall i, j :: 0 <= i < j < |r| ==> Less(r[i], r[j])
  }

  /** No string occurs twice in `r`. */
  predicate Distinct(r: seq<string>)
  {
    forall i, j :: 0 <= i < j < |r| ==> r[i] != r[j]
  }

  /** A strictly increasing sequence repeats no element. */
  lemma IncreasingDistinct(r: seq<string>)
    requires StrictlyIncreasing(r)
    ensures Distinct(r)
  {
    forall i, j | 0 <= i < j < |r|
      ensures r[i] != r[j]
    {
      LessIrreflexive(r[i]);
    }
  }

  /** The keys of `s` in ascending order: the canonical scan order. */
  function Sorted(s: set<string>): (r: seq<string>)
    ensures |r| == |s|
    ensures forall x :: x in r <==> x in s
    ensures StrictlyIncreasing(r)
    decreases |s|
  {
    if s == {} then []
    else
      var x := Least(s);
      var rest := Sorted(s - {x});
      assert forall j :: 0 <= j < |rest| ==> Less(x, rest[j]) by {
        forall j | 0 <= j < |rest|
          ensures Less(x, rest[j])
        {
          assert rest[j] in s - {x};
        }
      }
      [x] + rest
  }

  /** The head of a strictly increasing listing of `s` is the least key of `s`. */
  lemma HeadIsLeast(r: seq<string>, s: set<string>)
    requires |r| > 0 && StrictlyIncreasing(r)
    requires forall x :: x in r <==> x in s
    ensures IsLeast(r[0], s)
  {
    forall y | y in s
      ensures LessEq(r[0], y)
    {
      var j :| 0 <= j < |r| && r[j] == y;
      if j > 0 {
        assert Less(r[0], r[j]);
      }
    }
  }

  /** Its tail lists the rest of `s`, still strictly increasing. */
  lemma TailListsRest(r: seq<string>, s: set<string>)
    requires |r| > 0 && StrictlyIncreasing(r)
    requires forall x :: x in r <==> x in s
    ensures forall x :: x in r[1..] <==> x in s - {r[0]}
    ensures StrictlyIncreasing(r[1..])
  {
    forall x
      ensures x in r[1..] <==> x in s - {r[0]}
    {
      if x in r[1..] {
        var j :| 1 <= j < |r| && r[j] == x;
        assert Less(r[0], r[j]);
        LessIrreflexive(x);
      }
      if x in s - {r[0]} {
        var j :| 0 <= j < |r| && r[j] == x;
        assert j != 0;
        assert r[1..][j - 1] == x;
      }
    }
  }

  /** A strictly increasing listing of a set is unique: the scan order does
      not depend on how the set was built. */
  lemma {:induction false} SortedUnique(r: seq<string>, s: set<string>)
    requires StrictlyIncreasing(r)
    requires forall x :: x in r <==> x in s
    ensures r == Sorted(s)
    decreases |r|
  {
    if |r| == 0 {
      assert s == {};
    } else {
      HeadIsLeast(r, s);
      TailListsRest(r, s);
      SortedUnique(r[1..], s - {r[0]});
      SortedCons(r[0], s);
      assert r == [r[0]] + r[1..];
    }
  }

  /** The ascending listing starts with the least key. */
  lemma SortedCons(x: string, s: set<string>)
    requires IsLeast(x, s)
    ensures Sorted(s) == [x] + Sorted(s - {x})
  {
    LeastUnique(x, Least(s), s);
  }
}
