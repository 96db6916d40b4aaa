/** The array operations the core is built from: `find` (the first element
    that satisfies a test), `filter` (all of them, in order) and the
    subsequence relation that says `filter` keeps order. */
module Sequences {
  import opened Wrappers

  /** The index of the first element satisfying `p`, as `Array.find` scans. */
  function FindFirst<T>(xs: seq<T>, p: T -> bool): (r: Option<nat>)
    ensures r.Some? ==> r.value < |xs| && p(xs[r.value])
    ensures r.Some? ==> forall j :: 0 <= j < r.value ==> !p(xs[j])
    ensures r.None? <==> forall j :: 0 <= j < |xs| ==> !p(xs[j])
  {
    if xs == [] then None
    else if p(xs[0]) then Some(0)
    else
      match FindFirst(xs[1..], p)
      case None =>
        assert forall j :: 1 <= j < |xs| ==> xs[j] == xs[1..][j - 1];
        None
      case Some(i) =>
        assert forall j :: 1 <= j <= i ==> xs[j] == xs[1..][j - 1];
        Some(i + 1)
  }

  /** `xs` can be obtained from `ys` by deleting elements. */
  predicate IsSubsequence<T(==)>(xs: seq<T>, ys: seq<T>)
    decreases |ys|
  {
    if xs == [] then true
    else if ys == [] then false
    else if xs[0] == ys[0] then IsSubsequence(xs[1..], ys[1..])
    else IsSubsequence(xs, ys[1..])
  }

  /** `Array.filter`: the elements satisfying `p`, in their original order,
      each as many times as it occurs. */
  function Filter<T(==)>(xs: seq<T>, p: T -> bool): (r: seq<T>)
    ensures |r| <= |xs|
    ensures forall x :: x in r ==> p(x) && x in xs
    ensures forall i :: 0 <= i < |xs| && p(xs[i]) ==> xs[i] in r
    ensures IsSubsequence(r, xs)
    ensures forall i :: 0 <= i < |xs| && p(xs[i]) ==> multiset(r)[xs[i]] == multiset(xs)[xs[i]]
  {
    if xs == [] then []
    else
      var rest := Filter(xs[1..], p);
      assert xs == [xs[0]] + xs[1..];
      assert forall i :: 1 <= i < |xs| ==> xs[i] == xs[1..][i - 1];
      if p(xs[0]) then
        assert ([xs[0]] + rest)[1..] == rest;
        [xs[0]] + rest
      else
        SkipHead(rest, xs);
        rest
  }

  /** Dropping the head of the larger sequence keeps the relation. */
  lemma {:induction false} SkipHead<T>(xs: seq<T>, ys: seq<T>)
    requires ys != [] && IsSubsequence(xs, ys[1..])
    ensures IsSubsequence(xs, ys)
    decreases |ys|, 0
  {
    if xs != [] && xs[0] == ys[0] {
      if |ys| > 1 && xs[1..] != [] {
        SubsequenceOfTail(xs, ys[1..]);
      }
    }
  }

  /** Dropping the first element of a subsequence leaves a subsequence. */
  lemma {:induction false} SubsequenceOfTail<T>(xs: seq<T>, ys: seq<T>)
    requires xs != [] && IsSubsequence(xs, ys)
    ensures IsSubsequence(xs[1..], ys)
    decreases |ys|, 1
  {
    if xs[0] != ys[0] {
      SubsequenceOfTail(xs, ys[1..]);
      SkipHead(xs[1..], ys);
    } else if xs[1..] != [] {
      SkipHead(xs[1..], ys);
    }
  }

  /** Filtering with a test every element passes keeps everything. */
  lemma {:induction false} FilterKeepsAll<T>(xs: seq<T>, p: T -> bool)
    requires forall x :: p(x)
    ensures Filter(xs, p) == xs
  {
    if xs != [] {
      FilterKeepsAll(xs[1..], p);
    }
  }

  /** A prefix of a subsequence is a subsequence. */
  lemma {:induction false} PrefixOfSubsequence<T>(xs: seq<T>, ys: seq<T>, n: nat)
    requires n <= |xs| && IsSubsequence(xs, ys)
    ensures IsSubsequence(xs[..n], ys)
    decreases |ys|
  {
    if n > 0 {
      if xs[0] == ys[0] {
        assert xs[..n][1..] == xs[1..][..n - 1];
        PrefixOfSubsequence(xs[1..], ys[1..], n - 1);
      } else {
        PrefixOfSubsequence(xs, ys[1..], n);
      }
    }
  }
}
