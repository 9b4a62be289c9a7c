/**
 * The two slice idioms the ref listing uses on its backing arrays: filtering
 * in place (`filtered := s[:0]` followed by an `append` loop) and sorting in
 * place with a comparison function (`sort.Slice`).
 */
module Slices {

  /** The elements of `s` that satisfy `keep`, in their original order. */
  function Filter<T>(s: seq<T>, keep: T -> bool): (r: seq<T>)
    ensures |r| <= |s|
    decreases |s|
  {
    if |s| == 0 then []
    else Filter(s[..|s| - 1], keep) + (if keep(s[|s| - 1]) then [s[|s| - 1]] else [])
  }

  /** An element is in the filtered sequence exactly when it is in the input and is kept. */
  lemma {:induction false} FilterMembership<T>(s: seq<T>, keep: T -> bool, x: T)
    ensures x in Filter(s, keep) <==> x in s && keep(x)
    decreases |s|
  {
    if |s| > 0 {
      FilterMembership(s[..|s| - 1], keep, x);
      assert s == s[..|s| - 1] + [s[|s| - 1]];
    }
  }

  /** Filtering distributes over concatenation. */
  lemma {:induction false} FilterConcat<T>(s: seq<T>, t: seq<T>, keep: T -> bool)
    ensures Filter(s + t, keep) == Filter(s, keep) + Filter(t, keep)
    decreases |t|
  {
    if |t| > 0 {
      assert (s + t)[..|s + t| - 1] == s + t[..|t| - 1];
      FilterConcat(s, t[..|t| - 1], keep);
    } else {
      assert s + t == s;
    }
  }

  /** Filtering a sequence whose every element is kept changes nothing. */
  lemma {:induction false} FilterAllKept<T>(s: seq<T>, keep: T -> bool)
    requires forall i :: 0 <= i < |s| ==> keep(s[i])
    ensures Filter(s, keep) == s
    decreases |s|
  {
    if |s| > 0 {
      FilterAllKept(s[..|s| - 1], keep);
    }
  }

  /** Applies `f` to every element. */
  function Map<T, U>(s: seq<T>, f: T -> U): (r: seq<U>)
    ensures |r| == |s|
    ensures forall i :: 0 <= i < |s| ==> r[i] == f(s[i])
  {
    seq(|s|, i requires 0 <= i < |s| => f(s[i]))
  }

  /**
   * Filtering the mapped sequence is mapping the filtered one, when the
   * test on the image agrees with the test on the element.
   */
  lemma {:induction false} FilterMap<T, U>(s: seq<T>, f: T -> U, keepImage: U -> bool, keep: T -> bool)
    requires forall i :: 0 <= i < |s| ==> keepImage(f(s[i])) == keep(s[i])
    ensures Filter(Map(s, f), keepImage) == Map(Filter(s, keep), f)
    decreases |s|
  {
    if |s| > 0 {
      var init, last := s[..|s| - 1], s[|s| - 1];
      FilterMap(init, f, keepImage, keep);
      assert Map(s, f)[..|s| - 1] == Map(init, f);
      var fi := Filter(init, keep);
      if keep(last) {
        assert Map(fi + [last], f) == Map(fi, f) + [f(last)];
      }
    }
  }

  /**
   * Order preservation: the kept element `s[i]` lands at position
   * `|Filter(s[..i], keep)|`, the number of kept elements before it, and
   * that position grows with `i`.
   */
  lemma {:induction false} FilterRank<T>(s: seq<T>, keep: T -> bool, i: nat, j: nat)
    requires i < j <= |s|
    requires keep(s[i])
    ensures |Filter(s[..i], keep)| < |Filter(s[..j], keep)|
    ensures Filter(s[..j], keep)[|Filter(s[..i], keep)|] == s[i]
  {
    assert s[..j] == s[..i] + [s[i]] + s[i + 1..j];
    FilterConcat(s[..i] + [s[i]], s[i + 1..j], keep);
    assert (s[..i] + [s[i]])[..i] == s[..i];
  }

  /** Filters `a[..]` in place: the kept elements move to the front, in order; the tail is untouched. */
  method FilterInPlace<T>(a: array<T>, keep: T -> bool) returns (n: nat)
    modifies a
    ensures n <= a.Length
    ensures a[..n] == Filter(old(a[..]), keep)
    ensures a[n..] == old(a[n..])
  {
    ghost var orig := a[..];
    n := 0;
    var i := 0;
    while i < a.Length
      invariant n <= i <= a.Length
      invariant a[..n] == Filter(orig[..i], keep)
      invariant a[n..] == orig[n..]
    {
      assert orig[..i + 1][..i] == orig[..i];
      var x := a[i];
      if keep(x) {
        a[n] := x;
        n := n + 1;
      }
      i := i + 1;
    }
    assert orig[..a.Length] == orig;
  }

  /** `less` is a strict order: irreflexive and transitive. */
  ghost predicate StrictOrder<T(!new)>(less: (T, T) -> bool) {
    && (forall x :: !less(x, x))
    && (forall x, y, z :: less(x, y) && less(y, z) ==> less(x, z))
  }

  /** No element is `less` than one before it: what sort.Slice promises. */
  ghost predicate SortedBy<T>(s: seq<T>, less: (T, T) -> bool) {
    forall i, j :: 0 <= i < j < |s| ==> !less(s[j], s[i])
  }

  /** `s[..i]` is sorted and none of `s[i..n]` is `less` than an element of `s[..i]`. */
  ghost predicate SelectionDone<T>(s: seq<T>, i: nat, n: nat, less: (T, T) -> bool)
    requires i <= n <= |s|
  {
    && (forall p, q :: 0 <= p < q < i ==> !less(s[q], s[p]))
    && (forall p, q :: 0 <= p < i <= q < n ==> !less(s[q], s[p]))
  }

  /** One selection step: moving a least element of `s[i..n]` to `i` extends the sorted prefix. */
  lemma SelectionStep<T>(pre: seq<T>, post: seq<T>, i: nat, n: nat, less: (T, T) -> bool)
    requires i < n <= |pre| == |post|
    requires SelectionDone(pre, i, n, less)
    requires post[..i] == pre[..i]
    requires forall q :: i < q < n ==> !less(post[q], post[i])
    requires forall q :: i <= q < n ==> exists k :: i <= k < n && post[q] == pre[k]
    ensures SelectionDone(post, i + 1, n, less)
  {
    forall p, q | 0 <= p < i + 1 <= q < n ensures !less(post[q], post[p]) {
      if p < i {
        var k :| i <= k < n && post[q] == pre[k];
        assert post[p] == pre[..i][p];
      }
    }
    forall p, q | 0 <= p < q < i + 1 ensures !less(post[q], post[p]) {
      assert post[p] == pre[..i][p];
      if q < i {
        assert post[q] == pre[..i][q];
      } else {
        var k :| i <= k < n && post[q] == pre[k];
      }
    }
  }

  /**
   * Sorts `a[..n]` in place by `less` (selection sort); `a[n..]` is left
   * alone. The result is sorted and a permutation of the input.
   */
  method SortInPlace<T(!new)>(a: array<T>, n: nat, less: (T, T) -> bool)
    requires n <= a.Length
    requires StrictOrder(less)
    modifies a
    ensures SortedBy(a[..n], less)
    ensures multiset(a[..n]) == multiset(old(a[..n]))
    ensures a[n..] == old(a[n..])
  {
    var i := 0;
    while i < n
      invariant 0 <= i <= n
      invariant SelectionDone(a[..], i, n, less)
      invariant multiset(a[..n]) == multiset(old(a[..n]))
      invariant a[n..] == old(a[n..])
    {
      ghost var pre := a[..];
      SelectMin(a, i, n, less);
      SelectionStep(pre, a[..], i, n, less);
      i := i + 1;
    }
    assert SelectionDone(a[..], n, n, less);
  }

  /** Swaps a least element of `a[i..n]` into position `i`; the rest of the array keeps its elements. */
  method SelectMin<T(!new)>(a: array<T>, i: nat, n: nat, less: (T, T) -> bool)
    requires i < n <= a.Length
    requires StrictOrder(less)
    modifies a
    ensures a[..i] == old(a[..i]) && a[n..] == old(a[n..])
    ensures multiset(a[..n]) == multiset(old(a[..n]))
    ensures forall q :: i < q < n ==> !less(a[q], a[i])
    ensures forall q :: i <= q < n ==> exists k :: i <= k < n && a[q] == old(a[k])
  {
    var m := MinIndex(a, i, n, less);
    ghost var pre := a[..];
    a[i], a[m] := a[m], a[i];
    assert a[..] == pre[i := pre[m]][m := pre[i]];
    assert a[..n] == pre[..n][i := pre[m]][m := pre[i]];
    forall q | i <= q < n ensures exists k :: i <= k < n && a[q] == pre[k] {
      if q == i {
        assert a[q] == pre[m];
      } else if q == m {
        assert a[q] == pre[i];
      } else {
        assert a[q] == pre[q];
      }
    }
  }

  /** The position of an element of `a[lo..hi]` that no other element there is `less` than. */
  method MinIndex<T(!new)>(a: array<T>, lo: nat, hi: nat, less: (T, T) -> bool) returns (m: nat)
    requires lo < hi <= a.Length
    requires StrictOrder(less)
    ensures lo <= m < hi
    ensures forall k :: lo <= k < hi ==> !less(a[k], a[m])
  {
    m := lo;
    var j := lo + 1;
    while j < hi
      invariant lo <= m < j <= hi
      invariant forall k :: lo <= k < j ==> !less(a[k], a[m])
    {
      if less(a[j], a[m]) {
        m := j;
      }
      j := j + 1;
    }
  }
}
