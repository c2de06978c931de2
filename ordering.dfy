/**
 * Python's `sorted()` on a set of strings: code-point lexicographic order,
 * each element once.
 */
module Ordering {

  /** Python's `a < b` on str: lexicographic by code point, a proper prefix first. */
  predicate Less(a: string, b: string)
    ensures Less(a, b) ==> a != b
    decreases |a|
  {
    if |a| == 0 then |b| > 0
    else if |b| == 0 then false
    else if a[0] != b[0] then a[0] < b[0]
    else Less(a[1..], b[1..])
  }

  lemma {:induction false} LessIrreflexive(a: string)
    ensures !Less(a, a)
    decreases |a|
  {
    if |a| > 0 {
      LessIrreflexive(a[1..]);
    }
  }

  lemma {:induction false} LessTransitive(a: string, b: string, c: string)
    requires Less(a, b) && Less(b, c)
    ensures Less(a, c)
    decreases |a|
  {
    if |a| > 0 && |b| > 0 && |c| > 0 && a[0] == b[0] == c[0] {
      LessTransitive(a[1..], b[1..], c[1..]);
    }
  }

  lemma {:induction false} LessTotal(a: string, b: string)
    requires a != b
    ensures Less(a, b) || Less(b, a)
    decreases |a|
  {
    if |a| > 0 && |b| > 0 && a[0] == b[0] {
      assert a == [a[0]] + a[1..] && b == [b[0]] + b[1..];
      LessTotal(a[1..], b[1..]);
    }
  }

  /** Strictly increasing, hence also free of duplicates. */
  predicate StrictlyIncreasing(s: seq<string>)
  {
    forall i, j :: 0 <= i < j < |s| ==> Less(s[i], s[j])
  }

  /** A non-empty finite set of strings has a least element. */
  lemma {:induction false} MinimumExists(s: set<string>)
    requires s != {}
    ensures exists m :: m in s && forall y :: y in s ==> m == y || Less(m, y)
    decreases |s|
  {
    var x :| x in s;
    var rest := s - {x};
    if rest == {} {
      forall y | y in s
        ensures y == x
      {
        assert y !in rest;
      }
    } else {
      MinimumExists(rest);
      var m :| m in rest && forall y :: y in rest ==> m == y || Less(m, y);
      if Less(m, x) {
        forall y | y in s
          ensures m == y || Less(m, y)
        {
          if y != x {
            assert y in rest;
          }
        }
      } else {
        LessTotal(m, x);
        forall y | y in rest
          ensures Less(x, y)
        {
          if y != m {
            LessTransitive(x, m, y);
          }
        }
        forall y | y in s
          ensures x == y || Less(x, y)
        {
          if y != x {
            assert y in rest;
          }
        }
      }
    }
  }

  /** `sorted(items)` for a set: the elements in increasing order. */
  method SortStrings(items: set<string>) returns (sorted: seq<string>)
    ensures StrictlyIncreasing(sorted)
    ensures forall x :: x in sorted <==> x in items
    ensures |sorted| == |items|
  {
    sorted := [];
    var rest := items;
    while rest != {}
      invariant rest <= items
      invariant forall x :: x in items <==> x in sorted || x in rest
      invariant forall x :: x in sorted ==> x !in rest
      invariant StrictlyIncreasing(sorted)
      invariant forall x, y :: x in sorted && y in rest ==> Less(x, y)
      invariant |sorted| + |rest| == |items|
      decreases rest
    {
      MinimumExists(rest);
      var m :| m in rest && forall y :: y in rest ==> m == y || Less(m, y);
      sorted := sorted + [m];
      rest := rest - {m};
    }
  }

  /**
   * The listing is determined by its elements: two strictly increasing
   * sequences with the same elements are equal.
   */
  lemma {:induction false} SortedListingUnique(a: seq<string>, b: seq<string>)
    requires StrictlyIncreasing(a) && StrictlyIncreasing(b)
    requires forall x :: x in a <==> x in b
    ensures a == b
    decreases |a|
  {
    assert a != [] ==> a[0] in a;
    assert b != [] ==> b[0] in b;
    if a != [] && b != [] {
      if a[0] != b[0] {
        var j :| 0 <= j < |a| && a[j] == b[0];
        var k :| 0 <= k < |b| && b[k] == a[0];
        assert j > 0 && k > 0;
        LessTransitive(a[0], b[0], a[0]);
        LessIrreflexive(a[0]);
      }
      assert a == [a[0]] + a[1..] && b == [b[0]] + b[1..];
      forall x
        ensures x in a[1..] <==> x in b[1..]
      {
        if x in a[1..] {
          var i :| 0 <= i < |a[1..]| && a[1..][i] == x;
          assert Less(a[0], a[i + 1]);
          LessIrreflexive(x);
          assert x in b && x != b[0];
        }
        if x in b[1..] {
          var i :| 0 <= i < |b[1..]| && b[1..][i] == x;
          assert Less(b[0], b[i + 1]);
          LessIrreflexive(x);
          assert x in a && x != a[0];
        }
      }
      SortedListingUnique(a[1..], b[1..]);
    }
  }
}
