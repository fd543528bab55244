/** Properties of every element of a sequence, and regrouping of concatenations. */
module Sequences {
  lemma Regroup<T>(a: seq<T>, b: seq<T>, c: seq<T>)
    ensures a + (b + c) == (a + b) + c
  {
  }

  predicate All<T>(xs: seq<T>, p: T -> bool) { forall i :: 0 <= i < |xs| ==> p(xs[i]) }

  lemma AllExtended<T>(xs: seq<T>, x: T, p: T -> bool)
    requires All(xs, p) && p(x)
    ensures All(xs + [x], p)
  {
  }

  lemma AllReplaced<T>(xs: seq<T>, k: nat, x: T, p: T -> bool)
    requires All(xs, p) && p(x) && k < |xs|
    ensures All(xs[k := x], p)
  {
  }

  lemma AllAt<T>(xs: seq<T>, k: nat, p: T -> bool)
    requires All(xs, p) && k < |xs|
    ensures p(xs[k])
  {
  }
}
