/** Does a parcel fit a carrier's box? `exceedsDims` sorts both triples in place
    and compares them side by side (internal/core/routing/engine.go). */
module Dimensions {
  import opened Carriers

  type Triple = s: seq<real> | |s| == 3 witness [0.0, 0.0, 0.0]

  /** Some way of turning the parcel fits on every axis: side i goes along the
      carrier's axis `axis(i)`, all three different. */
  predicate FitsSomeRotation(d: Triple, m: Triple) {
    exists i, j, k :: 0 <= i < 3 && 0 <= j < 3 && 0 <= k < 3 && FitsAlong(d, m, i, j, k)
  }

  predicate FitsAlong(d: Triple, m: Triple, i: int, j: int, k: int)
    requires 0 <= i < 3 && 0 <= j < 3 && 0 <= k < 3
  {
    i != j && j != k && i != k && d[0] <= m[i] && d[1] <= m[j] && d[2] <= m[k]
  }

  lemma SixRotations(d: Triple, m: Triple)
    ensures FitsSomeRotation(d, m) <==>
      || FitsAlong(d, m, 0, 1, 2) || FitsAlong(d, m, 0, 2, 1) || FitsAlong(d, m, 1, 0, 2)
      || FitsAlong(d, m, 1, 2, 0) || FitsAlong(d, m, 2, 0, 1) || FitsAlong(d, m, 2, 1, 0)
  {}

  function CompareSwap(s: Triple, i: int, j: int): Triple
    requires 0 <= i < j < 3
  {
    if s[j] > s[i] then s[i := s[j]][j := s[i]] else s
  }

  /** What is left to do when the two loops of `sortDesc` stand at (i, j). */
  function SortFrom(s: Triple, i: int, j: int): Triple
    requires 0 <= i < j
    decreases 3 - i, 3 - j
  {
    if i >= 3 then s
    else if j >= 3 then SortFrom(s, i + 1, i + 2)
    else SortFrom(CompareSwap(s, i, j), i, j + 1)
  }

  function Sorted(s: Triple): Triple {
    CompareSwap(CompareSwap(CompareSwap(s, 0, 1), 0, 2), 1, 2)
  }

  lemma SortFromStart(s: Triple)
    ensures SortFrom(s, 0, 1) == Sorted(s)
  {
    var a := CompareSwap(s, 0, 1);
    var b := CompareSwap(a, 0, 2);
    var c := CompareSwap(b, 1, 2);
    assert SortFrom(s, 0, 1) == SortFrom(a, 0, 2) == SortFrom(b, 0, 3) == SortFrom(b, 1, 2);
    assert SortFrom(b, 1, 2) == SortFrom(c, 1, 3) == SortFrom(c, 2, 3) == SortFrom(c, 3, 4) == c;
  }

  lemma CompareSwapPermutes(s: Triple, i: int, j: int)
    requires 0 <= i < j < 3
    ensures multiset(CompareSwap(s, i, j)) == multiset(s)
  {}

  /** `sortDesc` yields a descending permutation of its input. */
  lemma SortedIsDescendingPermutation(s: Triple)
    ensures Sorted(s)[0] >= Sorted(s)[1] >= Sorted(s)[2]
    ensures multiset(Sorted(s)) == multiset(s)
  {
    var a := CompareSwap(s, 0, 1);
    CompareSwapPermutes(s, 0, 1);
    CompareSwapPermutes(a, 0, 2);
    CompareSwapPermutes(CompareSwap(a, 0, 2), 1, 2);
  }

  lemma SwapKeepsFit(d: Triple, m: Triple, i: int, j: int)
    requires (i, j) in {(0, 1), (0, 2), (1, 2)}
    ensures FitsSomeRotation(CompareSwap(d, i, j), m) <==> FitsSomeRotation(d, m)
    ensures FitsSomeRotation(d, CompareSwap(m, i, j)) <==> FitsSomeRotation(d, m)
  {
    SixRotations(d, m);
    SixRotations(CompareSwap(d, i, j), m);
    SixRotations(d, CompareSwap(m, i, j));
  }

  lemma SortingKeepsFit(d: Triple, m: Triple)
    ensures FitsSomeRotation(Sorted(d), m) <==> FitsSomeRotation(d, m)
    ensures FitsSomeRotation(d, Sorted(m)) <==> FitsSomeRotation(d, m)
  {
    var d1 := CompareSwap(d, 0, 1);
    var d2 := CompareSwap(d1, 0, 2);
    SwapKeepsFit(d, m, 0, 1);
    SwapKeepsFit(d1, m, 0, 2);
    SwapKeepsFit(d2, m, 1, 2);
    var m1 := CompareSwap(m, 0, 1);
    var m2 := CompareSwap(m1, 0, 2);
    SwapKeepsFit(d, m, 0, 1);
    SwapKeepsFit(d, m1, 0, 2);
    SwapKeepsFit(d, m2, 1, 2);
  }

  /** Comparing the sorted triples side by side decides whether some rotation
      fits. */
  lemma SortedComparisonIsRotation(d: Triple, m: Triple)
    ensures FitsSomeRotation(d, m) <==>
      Sorted(d)[0] <= Sorted(m)[0] && Sorted(d)[1] <= Sorted(m)[1] && Sorted(d)[2] <= Sorted(m)[2]
  {
    var sd, sm := Sorted(d), Sorted(m);
    SortedIsDescendingPermutation(d);
    SortedIsDescendingPermutation(m);
    SortingKeepsFit(d, m);
    SortingKeepsFit(sd, m);
    assert FitsSomeRotation(d, m) <==> FitsSomeRotation(sd, sm);
    if FitsSomeRotation(sd, sm) {
      DescendingFit(sd, sm);
    } else {
      assert !FitsAlong(sd, sm, 0, 1, 2);
    }
  }

  lemma DescendingFit(d: Triple, m: Triple)
    requires d[0] >= d[1] >= d[2] && m[0] >= m[1] >= m[2]
    requires FitsSomeRotation(d, m)
    ensures d[0] <= m[0] && d[1] <= m[1] && d[2] <= m[2]
  {
    SixRotations(d, m);
  }

  method SortDesc(a: array<real>)
    requires a.Length == 3
    modifies a
    ensures a[..] == Sorted(old(a[..]))
  {
    SortFromStart(a[..]);
    var i := 0;
    while i < 3
      invariant 0 <= i <= 3
      invariant SortFrom(a[..], i, i + 1) == Sorted(old(a[..]))
    {
      var j := i + 1;
      while j < 3
        invariant i < j <= 3
        invariant SortFrom(a[..], i, j) == Sorted(old(a[..]))
      {
        ghost var s := a[..];
        if a[j] > a[i] {
          a[i], a[j] := a[j], a[i];
        }
        assert a[..] == CompareSwap(s, i, j);
        j := j + 1;
      }
      i := i + 1;
    }
  }

  method ExceedsDims(p: Dims, max: Dims) returns (exceeds: bool)
    ensures exceeds <==> !FitsSomeRotation(p.Sides(), max.Sides())
  {
    var dims := new real[3] [p.l, p.w, p.h];
    var maxs := new real[3] [max.l, max.w, max.h];
    assert dims[..] == p.Sides() && maxs[..] == max.Sides();
    SortDesc(dims);
    SortDesc(maxs);
    SortedComparisonIsRotation(p.Sides(), max.Sides());
    for i := 0 to 3
      invariant forall k :: 0 <= k < i ==> dims[k] <= maxs[k]
    {
      if dims[i] > maxs[i] {
        assert dims[..][i] > maxs[..][i];
        return true;
      }
    }
    assert forall k :: 0 <= k < 3 ==> dims[..][k] <= maxs[..][k];
    return false;
  }
}
