/** Order-preserving embeddings of one list into another, for the search filters. */
module Sequences {

  /**
   * `xs` is what remains of `ys` after dropping some elements and narrowing each kept
   * one: in order, every element of `xs` is related by `narrows` to a distinct element
   * of `ys`.
   */
  predicate Embeds<T>(xs: seq<T>, ys: seq<T>, narrows: (T, T) -> bool)
    decreases |ys|
  {
    if xs == [] then true
    else if ys == [] then false
    else (narrows(xs[0], ys[0]) && Embeds(xs[1..], ys[1..], narrows)) || Embeds(xs, ys[1..], narrows)
  }

  /** `xs` keeps some elements of `ys`, unchanged and in their order. */
  predicate IsSubsequence<T(==)>(xs: seq<T>, ys: seq<T>) {
    Embeds(xs, ys, (a: T, b: T) => a == b)
  }

  /** An embedding never adds elements. */
  lemma {:induction false} EmbedsNoLonger<T>(xs: seq<T>, ys: seq<T>, narrows: (T, T) -> bool)
    requires Embeds(xs, ys, narrows)
    ensures |xs| <= |ys|
    decreases |ys|
  {
    if xs != [] {
      if narrows(xs[0], ys[0]) && Embeds(xs[1..], ys[1..], narrows) {
        EmbedsNoLonger(xs[1..], ys[1..], narrows);
      } else {
        EmbedsNoLonger(xs, ys[1..], narrows);
      }
    }
  }

  /** A list embeds into itself when every element narrows itself. */
  lemma {:induction false} EmbedsReflexive<T>(xs: seq<T>, narrows: (T, T) -> bool)
    requires forall i | 0 <= i < |xs| :: narrows(xs[i], xs[i])
    ensures Embeds(xs, xs, narrows)
    decreases |xs|
  {
    if xs != [] {
      EmbedsReflexive(xs[1..], narrows);
    }
  }

  /** A list is a subsequence of itself. */
  lemma SubsequenceReflexive<T>(xs: seq<T>)
    ensures IsSubsequence(xs, xs)
  {
    EmbedsReflexive(xs, (a: T, b: T) => a == b);
  }
}
