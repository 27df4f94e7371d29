/**
 * Python's filtering comprehension `[x for x in xs if p(x)]` and sums over it, specified by the
 * positions of `xs` they keep.
 */
module Filtering {

  /** The positions `i` of `xs` with `p(xs[i])`: exactly those, each once, in ascending order. */
  function Kept<T>(xs: seq<T>, p: T -> bool): (idx: seq<nat>)
    ensures forall k :: 0 <= k < |idx| ==> idx[k] < |xs| && p(xs[idx[k]])
    ensures forall k, l :: 0 <= k < l < |idx| ==> idx[k] < idx[l]
    ensures forall i :: 0 <= i < |xs| && p(xs[i]) ==> i in idx
  {
    if xs == [] then []
    else Kept(xs[..|xs| - 1], p) + (if p(xs[|xs| - 1]) then [|xs| - 1] else [])
  }

  /** No position is kept twice, so at most all of them are. */
  lemma {:induction false} KeptCount<T>(xs: seq<T>, p: T -> bool)
    ensures |Kept(xs, p)| <= |xs|
  {
    if xs != [] {
      KeptCount(xs[..|xs| - 1], p);
    }
  }

  /** `[x for x in xs if p(x)]`: the elements at the kept positions, in order. */
  function Filter<T>(xs: seq<T>, p: T -> bool): (r: seq<T>)
    ensures |r| == |Kept(xs, p)|
    ensures forall k :: 0 <= k < |r| ==> r[k] == xs[Kept(xs, p)[k]]
  {
    if xs == [] then []
    else Filter(xs[..|xs| - 1], p) + (if p(xs[|xs| - 1]) then [xs[|xs| - 1]] else [])
  }

  /** `sum(f(x) for x in xs if p(x))`, adding from the left. */
  function SumWhere<T>(xs: seq<T>, p: T -> bool, f: T -> real): real
  {
    if xs == [] then 0.0
    else SumWhere(xs[..|xs| - 1], p, f) + (if p(xs[|xs| - 1]) then f(xs[|xs| - 1]) else 0.0)
  }

  /** Filtering a concatenation filters each part. */
  lemma {:induction false} FilterConcat<T>(a: seq<T>, b: seq<T>, p: T -> bool)
    ensures Filter(a + b, p) == Filter(a, p) + Filter(b, p)
  {
    if b != [] {
      var b' := b[..|b| - 1];
      assert (a + b)[..|a + b| - 1] == a + b';
      FilterConcat(a, b', p);
    } else {
      assert a + b == a;
    }
  }

  /** Putting the same element in front of two sequences keeps a relation between their filterings. */
  lemma {:induction false} FilterCons<T>(h: T, xs: seq<T>, ys: seq<T>, extra: seq<T>, p: T -> bool)
    requires Filter(ys, p) == Filter(xs, p) + extra
    ensures Filter([h] + ys, p) == Filter([h] + xs, p) + extra
  {
    FilterConcat([h], ys, p);
    FilterConcat([h], xs, p);
    SeqAssoc(Filter([h], p), Filter(xs, p), extra);
  }

  /** Concatenation is associative. */
  lemma SeqAssoc<T>(a: seq<T>, b: seq<T>, c: seq<T>)
    ensures a + (b + c) == (a + b) + c
  {
  }

  /** Nothing is kept when no element satisfies `p`. */
  lemma FilterNone<T>(xs: seq<T>, p: T -> bool)
    requires forall i :: 0 <= i < |xs| ==> !p(xs[i])
    ensures Filter(xs, p) == []
  {
  }

  /** Conditions that agree on every element keep the same elements. */
  lemma {:induction false} FilterCongruent<T>(xs: seq<T>, p: T -> bool, q: T -> bool)
    requires forall i :: 0 <= i < |xs| ==> p(xs[i]) == q(xs[i])
    ensures Filter(xs, p) == Filter(xs, q)
  {
    if xs != [] {
      FilterCongruent(xs[..|xs| - 1], p, q);
    }
  }
}
