/** `Array.prototype.filter`, which every list patch, the tag editor, the skills
    parser and the category filters are built from. */
module Seqs {

  /** `xs.filter(keep)`: only elements of `xs` that pass. */
  function Filter<T(!new)>(xs: seq<T>, keep: T -> bool): (r: seq<T>)
    ensures |r| <= |xs|
    ensures forall x :: x in r ==> x in xs && keep(x)
    decreases |xs|
  {
    if xs == [] then []
    else
      assert xs == [xs[0]] + xs[1..];
      (if keep(xs[0]) then [xs[0]] else []) + Filter(xs[1..], keep)
  }

  /** `a` is `b` with some elements deleted and the rest left in order. */
  ghost predicate IsSubsequence<T>(a: seq<T>, b: seq<T>)
    decreases |b|
  {
    if b == [] then a == []
    else (a != [] && a[0] == b[0] && IsSubsequence(a[1..], b[1..])) || IsSubsequence(a, b[1..])
  }

  /** Each element that passes is kept as often as it occurs in `xs`; the
      others are all dropped. */
  lemma {:induction false} FilterCounts<T(!new)>(xs: seq<T>, keep: T -> bool)
    ensures forall x :: multiset(Filter(xs, keep))[x] == if keep(x) then multiset(xs)[x] else 0
    decreases |xs|
  {
    if xs != [] {
      FilterCounts(xs[1..], keep);
      assert xs == [xs[0]] + xs[1..];
    }
  }

  /** Filtering a list with a known head: the head if it passes, then the
      filtered tail. */
  lemma FilterCons<T(!new)>(x: T, ys: seq<T>, keep: T -> bool)
    ensures Filter([x] + ys, keep) == (if keep(x) then [x] else []) + Filter(ys, keep)
  {
    assert ([x] + ys)[1..] == ys;
  }

  /** A filtered list keeps the order of the original. */
  lemma {:induction false} FilterIsSubsequence<T(!new)>(xs: seq<T>, keep: T -> bool)
    ensures IsSubsequence(Filter(xs, keep), xs)
    decreases |xs|
  {
    if xs != [] {
      FilterIsSubsequence(xs[1..], keep);
      var r := Filter(xs, keep);
      if keep(xs[0]) {
        assert r == [xs[0]] + Filter(xs[1..], keep);
        assert r[1..] == Filter(xs[1..], keep);
      } else {
        assert r == Filter(xs[1..], keep);
      }
    }
  }

  /** A filter that every element passes returns the list unchanged. */
  lemma {:induction false} FilterKeepsAll<T(!new)>(xs: seq<T>, keep: T -> bool)
    requires forall i :: 0 <= i < |xs| ==> keep(xs[i])
    ensures Filter(xs, keep) == xs
    decreases |xs|
  {
    if xs != [] {
      FilterKeepsAll(xs[1..], keep);
      assert xs == [xs[0]] + xs[1..];
    }
  }

  /** Filtering twice by the same test changes nothing the second time. */
  lemma FilterIdempotent<T(!new)>(xs: seq<T>, keep: T -> bool)
    ensures Filter(Filter(xs, keep), keep) == Filter(xs, keep)
  {
    var r := Filter(xs, keep);
    forall i | 0 <= i < |r| ensures keep(r[i]) {
      assert r[i] in r;
    }
    FilterKeepsAll(r, keep);
  }
}
