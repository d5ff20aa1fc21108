/** The two JavaScript array operations the storefront relies on: `findIndex`/`find` (the first
    element satisfying a test) and `filter` (the elements satisfying a test, in their order). */
module Seqs {
  import opened Wrappers

  /** `a` is an order-preserving subsequence of `s`: `s` with some elements deleted. */
  ghost predicate Subseq<T>(a: seq<T>, s: seq<T>)
  {
    if a == [] then true
    else if s == [] then false
    else (a[0] == s[0] && Subseq(a[1..], s[1..])) || Subseq(a, s[1..])
  }

  /** Position of the first element that satisfies `test` (`Array.prototype.findIndex`; `find` returns
      the element at that position, or `undefined` when there is none). */
  function FindIndex<T>(s: seq<T>, test: T -> bool): (r: Option<nat>)
    ensures r.Some? ==> r.value < |s| && test(s[r.value])
    ensures r.Some? ==> forall j :: 0 <= j < r.value ==> !test(s[j])
    ensures r.None? <==> forall j :: 0 <= j < |s| ==> !test(s[j])
  {
    if s == [] then None
    else if test(s[0]) then Some(0)
    else match FindIndex(s[1..], test)
      case None =>
        assert forall j :: 1 <= j < |s| ==> s[j] == s[1..][j - 1];
        None
      case Some(k) =>
        assert forall j :: 1 <= j < k + 1 ==> s[j] == s[1..][j - 1];
        Some(k + 1)
  }

  /** The elements of `s` that pass `test`, in their order (`Array.prototype.filter`). */
  function Filter<T(==)>(s: seq<T>, test: T -> bool): (r: seq<T>)
    ensures |r| <= |s|
    ensures forall x :: x in r ==> x in s && test(x)
    ensures forall x :: x in s && test(x) ==> x in r
  {
    if s == [] then []
    else if test(s[0]) then [s[0]] + Filter(s[1..], test)
    else Filter(s[1..], test)
  }

  /** Filtering keeps the surviving elements in their original order. */
  lemma {:induction false} FilterIsSubseq<T>(s: seq<T>, test: T -> bool)
    ensures Subseq(Filter(s, test), s)
  {
    if s != [] {
      var rest := Filter(s[1..], test);
      FilterIsSubseq(s[1..], test);
      if test(s[0]) {
        assert ([s[0]] + rest)[1..] == rest;
      }
    }
  }

  /** Filtering a concatenation filters each part. */
  lemma {:induction false} FilterConcat<T>(a: seq<T>, b: seq<T>, test: T -> bool)
    ensures Filter(a + b, test) == Filter(a, test) + Filter(b, test)
  {
    if a == [] {
      assert a + b == b;
    } else {
      assert (a + b)[0] == a[0];
      assert (a + b)[1..] == a[1..] + b;
      FilterConcat(a[1..], b, test);
    }
  }

  /** Filtering one element keeps it exactly when it passes. */
  lemma FilterSingle<T>(x: T, test: T -> bool)
    ensures Filter([x], test) == if test(x) then [x] else []
  {
    assert [x][1..] == [];
  }

  /** When every element passes, filtering changes nothing. */
  lemma {:induction false} FilterKeepsAll<T>(s: seq<T>, test: T -> bool)
    requires forall i :: 0 <= i < |s| ==> test(s[i])
    ensures Filter(s, test) == s
  {
    if s != [] {
      FilterKeepsAll(s[1..], test);
    }
  }

  /** When no element passes, filtering leaves nothing. */
  lemma {:induction false} FilterDropsAll<T>(s: seq<T>, test: T -> bool)
    requires forall i :: 0 <= i < |s| ==> !test(s[i])
    ensures Filter(s, test) == []
  {
    if s != [] {
      FilterDropsAll(s[1..], test);
    }
  }

  /** When exactly the element at `k` fails the test, filtering cuts out that one element. */
  lemma {:induction false} FilterCutsOne<T>(s: seq<T>, k: nat, test: T -> bool)
    requires k < |s| && !test(s[k])
    requires forall i :: 0 <= i < |s| && i != k ==> test(s[i])
    ensures Filter(s, test) == s[..k] + s[k + 1..]
  {
    if k == 0 {
      FilterKeepsAll(s[1..], test);
    } else {
      FilterCutsOne(s[1..], k - 1, test);
      assert s[..k] + s[k + 1..] == [s[0]] + (s[1..][..k - 1] + s[1..][k..]);
    }
  }
}
