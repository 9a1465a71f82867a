/** sort.Slice: a permutation in which nothing precedes an earlier element. Equal elements may come in any order. */
module Sorting {

  /** A strict weak order, as sort.Slice needs. */
  ghost predicate Orders<T(!new)>(less: (T, T) -> bool) {
    && (forall a :: !less(a, a))
    && (forall a, b, c :: less(a, b) && less(b, c) ==> less(a, c))
    && (forall a, b, c :: !less(a, b) && !less(b, c) ==> !less(a, c))
  }

  ghost predicate Sorted<T>(xs: seq<T>, less: (T, T) -> bool) {
    forall i, j :: 0 <= i < j < |xs| ==> !less(xs[j], xs[i])
  }

  lemma InsertedSorted<T(!new)>(xs: seq<T>, x: T, p: nat, less: (T, T) -> bool)
    requires Orders(less) && Sorted(xs, less) && p <= |xs|
    requires p > 0 ==> !less(x, xs[p - 1])
    requires forall i :: p <= i < |xs| ==> less(x, xs[i])
    ensures Sorted(xs[..p] + [x] + xs[p..], less)
  {
    var ys := xs[..p] + [x] + xs[p..];
    forall i, j | 0 <= i < j < |ys| ensures !less(ys[j], ys[i]) {
      if j < p {
        assert ys[i] == xs[i] && ys[j] == xs[j];
      } else if j == p {
        assert ys[i] == xs[i] && ys[j] == x;
        assert i < p - 1 ==> !less(xs[p - 1], xs[i]);
      } else if i < p {
        assert ys[i] == xs[i] && ys[j] == xs[j - 1];
      } else if i == p {
        assert ys[i] == x && ys[j] == xs[j - 1];
      } else {
        assert ys[i] == xs[i - 1] && ys[j] == xs[j - 1];
      }
    }
  }

  lemma InsertedPermutes<T>(ys: seq<T>, x: T, p: nat)
    requires p <= |ys|
    ensures multiset(ys[..p] + [x] + ys[p..]) == multiset(ys) + multiset{x}
  {
    assert ys[..p] + ys[p..] == ys;
  }

  method Insert<T(!new)>(ys: seq<T>, x: T, less: (T, T) -> bool) returns (zs: seq<T>)
    requires Orders(less) && Sorted(ys, less)
    ensures multiset(zs) == multiset(ys) + multiset{x} && Sorted(zs, less)
  {
    var p := |ys|;
    while p > 0 && less(x, ys[p - 1])
      invariant 0 <= p <= |ys| && forall k :: p <= k < |ys| ==> less(x, ys[k])
    {
      p := p - 1;
    }
    InsertedSorted(ys, x, p, less);
    InsertedPermutes(ys, x, p);
    zs := ys[..p] + [x] + ys[p..];
  }

  method SortSlice<T(!new)>(xs: seq<T>, less: (T, T) -> bool) returns (ys: seq<T>)
    requires Orders(less)
    ensures multiset(ys) == multiset(xs) && Sorted(ys, less)
  {
    ys := [];
    assert Sorted(ys, less);
    hide Orders, Sorted;
    for i := 0 to |xs|
      invariant multiset(ys) == multiset(xs[..i]) && Sorted(ys, less)
    {
      assert xs[..i + 1] == xs[..i] + [xs[i]];
      ys := Insert(ys, xs[i], less);
    }
    assert xs[..|xs|] == xs;
  }
}
