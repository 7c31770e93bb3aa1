/** Sums over the rows of a table. */
module Sums {

  function Sum<T>(xs: seq<T>, f: T -> int): int {
    if xs == [] then 0 else Sum(xs[..|xs| - 1], f) + f(xs[|xs| - 1])
  }

  lemma SumAppend<T>(xs: seq<T>, x: T, f: T -> int)
    ensures Sum(xs + [x], f) == Sum(xs, f) + f(x)
  {
    assert (xs + [x])[..|xs|] == xs;
  }

  /** Two tables that agree everywhere but at row `i` differ in their sums by that row alone. */
  lemma {:induction false} SumChange<S, T>(xs: seq<S>, f: S -> int, ys: seq<T>, g: T -> int, i: nat)
    requires |xs| == |ys| && i < |xs|
    requires forall k :: 0 <= k < |xs| && k != i ==> f(xs[k]) == g(ys[k])
    ensures Sum(ys, g) - Sum(xs, f) == g(ys[i]) - f(xs[i])
  {
    var n := |xs| - 1;
    if i == n {
      SumAgree(xs[..n], f, ys[..n], g);
    } else {
      SumChange(xs[..n], f, ys[..n], g, i);
    }
  }

  lemma {:induction false} SumAgree<S, T>(xs: seq<S>, f: S -> int, ys: seq<T>, g: T -> int)
    requires |xs| == |ys|
    requires forall k :: 0 <= k < |xs| ==> f(xs[k]) == g(ys[k])
    ensures Sum(ys, g) == Sum(xs, f)
  {
    if xs != [] { SumAgree(xs[..|xs| - 1], f, ys[..|ys| - 1], g); }
  }

  lemma {:induction false} SumZero<T>(xs: seq<T>, f: T -> int)
    requires forall k :: 0 <= k < |xs| ==> f(xs[k]) == 0
    ensures Sum(xs, f) == 0
  {
    if xs != [] { SumZero(xs[..|xs| - 1], f); }
  }

  /** A sum of non-negative terms is at least each one of them. */
  lemma {:induction false} SumCovers<T>(xs: seq<T>, f: T -> int, i: nat)
    requires forall k :: 0 <= k < |xs| ==> 0 <= f(xs[k])
    ensures 0 <= Sum(xs, f)
    ensures i < |xs| ==> f(xs[i]) <= Sum(xs, f)
  {
    if xs != [] { SumCovers(xs[..|xs| - 1], f, i); }
  }

  lemma {:induction false} SumSplit<T>(xs: seq<T>, f: T -> int, g: T -> int, h: T -> int)
    requires forall k :: 0 <= k < |xs| ==> f(xs[k]) == g(xs[k]) + h(xs[k])
    ensures Sum(xs, f) == Sum(xs, g) + Sum(xs, h)
  {
    if xs != [] { SumSplit(xs[..|xs| - 1], f, g, h); }
  }

  lemma {:induction false} SumBelow<S, T>(xs: seq<S>, f: S -> int, ys: seq<T>, g: T -> int)
    requires |xs| == |ys|
    requires forall k :: 0 <= k < |xs| ==> f(xs[k]) <= g(ys[k])
    ensures Sum(xs, f) <= Sum(ys, g)
  {
    if xs != [] { SumBelow(xs[..|xs| - 1], f, ys[..|ys| - 1], g); }
  }
}
