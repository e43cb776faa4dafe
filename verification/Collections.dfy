/** Facts about sequences and finite sets that several modules need. */
module Collections {
  ghost predicate Distinct<T>(xs: seq<T>) {
    forall i, k :: 0 <= i < k < |xs| ==> xs[i] != xs[k]
  }

  function Elements<T(==)>(xs: seq<T>): set<T> {
    set x | x in xs
  }

  lemma {:induction false} DistinctCount<T>(xs: seq<T>)
    requires Distinct(xs)
    ensures |Elements(xs)| == |xs|
  {
    if xs != [] {
      var n := |xs| - 1;
      DistinctCount(xs[..n]);
      assert Elements(xs) == Elements(xs[..n]) + {xs[n]};
    } else {
      assert Elements(xs) == {};
    }
  }

  lemma SubsetCardinality<T>(a: set<T>, b: set<T>)
    requires a <= b
    ensures |a| <= |b|
  {
    assert b == a + (b - a);
  }

  lemma SubsetOfSameSize<T>(a: set<T>, b: set<T>)
    requires a <= b && |a| >= |b|
    ensures a == b
  {
    if x :| x in b && x !in a {
      assert a <= b - {x};
      SubsetCardinality(a, b - {x});
    }
  }

  lemma SplitAt<T>(a: seq<T>, x: seq<T>, b: seq<T>, y: seq<T>)
    requires |a| == |b| && a + x == b + y
    ensures a == b && x == y
  {
    assert a == (a + x)[..|a|] && b == (b + y)[..|b|];
    assert x == (a + x)[|a|..] && y == (b + y)[|b|..];
  }

  /** What comes before the first `u`, and what after it. */
  lemma SplitAtFirst<T>(u: T, a: seq<T>, x: seq<T>, b: seq<T>, y: seq<T>)
    requires u !in a && u !in b && a + ([u] + x) == b + ([u] + y)
    ensures a == b && x == y
  {
    var left, right := a + ([u] + x), b + ([u] + y);
    assert left[|a|] == u && right[|b|] == u;
    assert forall i :: 0 <= i < |a| ==> left[i] == a[i];
    assert forall i :: 0 <= i < |b| ==> right[i] == b[i];
    assert |a| == |b|;
    SplitAt(a, [u] + x, b, [u] + y);
    SplitAt([u], x, [u], y);
  }
}
