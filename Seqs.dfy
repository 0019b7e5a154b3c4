/** Sequence helpers shared by the model: an optional value, the
    order-keeping filter that the game applies with `Array.filter`, and
    strictly increasing id lists. */
module Seqs {

  datatype Option<T> = None | Some(value: T)

  /** The elements of xs on which keep holds, in their original order. */
  function Filter<T>(xs: seq<T>, keep: T -> bool): (r: seq<T>)
    ensures |r| <= |xs|
  {
    if xs == [] then []
    else Filter(xs[..|xs| - 1], keep) + (if keep(xs[|xs| - 1]) then [xs[|xs| - 1]] else [])
  }

  /** An element survives the filter exactly when it was present and is kept. */
  lemma {:induction false} FilterMembers<T>(xs: seq<T>, keep: T -> bool, x: T)
    ensures x in Filter(xs, keep) <==> x in xs && keep(x)
  {
    if xs != [] {
      var init, last := xs[..|xs| - 1], xs[|xs| - 1];
      assert xs == init + [last];
      FilterMembers(init, keep, x);
    }
  }

  /** Every element of the result is kept. */
  lemma {:induction false} FilterAllKept<T>(xs: seq<T>, keep: T -> bool)
    ensures forall i :: 0 <= i < |Filter(xs, keep)| ==> keep(Filter(xs, keep)[i])
  {
    if xs != [] {
      FilterAllKept(xs[..|xs| - 1], keep);
    }
  }

  /** The filter distributes over concatenation, so it keeps the order of
      the survivors. */
  lemma {:induction false} FilterConcat<T>(a: seq<T>, b: seq<T>, keep: T -> bool)
    ensures Filter(a + b, keep) == Filter(a, keep) + Filter(b, keep)
    decreases |b|
  {
    if b == [] {
      assert a + b == a;
    } else {
      var init, last := b[..|b| - 1], b[|b| - 1];
      assert (a + b)[..|a + b| - 1] == a + init;
      assert (a + b)[|a + b| - 1] == last;
      FilterConcat(a, init, keep);
    }
  }

  /** When every element is kept, the filter returns its input. */
  lemma {:induction false} FilterKeepsAll<T>(xs: seq<T>, keep: T -> bool)
    requires forall i :: 0 <= i < |xs| ==> keep(xs[i])
    ensures Filter(xs, keep) == xs
  {
    if xs != [] {
      FilterKeepsAll(xs[..|xs| - 1], keep);
    }
  }

  /** Filtering twice with the same test is filtering once. */
  lemma FilterIdempotent<T>(xs: seq<T>, keep: T -> bool)
    ensures Filter(Filter(xs, keep), keep) == Filter(xs, keep)
  {
    FilterAllKept(xs, keep);
    FilterKeepsAll(Filter(xs, keep), keep);
  }

  /** Two tests that agree on the elements of xs filter it alike. */
  lemma {:induction false} FilterCongruent<T>(xs: seq<T>, k1: T -> bool, k2: T -> bool)
    requires forall i :: 0 <= i < |xs| ==> k1(xs[i]) == k2(xs[i])
    ensures Filter(xs, k1) == Filter(xs, k2)
  {
    if xs != [] {
      FilterCongruent(xs[..|xs| - 1], k1, k2);
    }
  }

  /** Every element of the result is an element of the input. */
  lemma {:induction false} FilterSubsequence<T>(xs: seq<T>, keep: T -> bool)
    ensures forall i :: 0 <= i < |Filter(xs, keep)| ==> Filter(xs, keep)[i] in xs
  {
    if xs != [] {
      var init := xs[..|xs| - 1];
      FilterSubsequence(init, keep);
      assert forall y :: y in init ==> y in xs;
    }
  }

  predicate Increasing(ids: seq<nat>) {
    forall i, j :: 0 <= i < j < |ids| ==> ids[i] < ids[j]
  }

  /** Every id of the list names a cell of a table of n entries. */
  predicate IdsBelow(ids: seq<nat>, n: nat) {
    forall i :: 0 <= i < |ids| ==> ids[i] < n
  }

  /** Filtering an increasing id list leaves it increasing. */
  lemma {:induction false} FilterIncreasing(ids: seq<nat>, keep: nat -> bool)
    requires Increasing(ids)
    ensures Increasing(Filter(ids, keep))
  {
    if ids != [] {
      var init, last := ids[..|ids| - 1], ids[|ids| - 1];
      FilterIncreasing(init, keep);
      FilterSubsequence(init, keep);
      var f := Filter(init, keep);
      forall i | 0 <= i < |f| ensures f[i] < last {
        var j :| 0 <= j < |init| && init[j] == f[i];
      }
    }
  }

  /** A filtered id list still points into the same table. */
  lemma FilterIdsBelow(ids: seq<nat>, keep: nat -> bool, n: nat)
    requires IdsBelow(ids, n)
    ensures IdsBelow(Filter(ids, keep), n)
  {
    FilterSubsequence(ids, keep);
  }
}
