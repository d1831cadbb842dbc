/** Python's order-preserving filter, `[x for x in xs if keep(x)]`, and
    the facts the scripts' selection loops rely on. */
module Filtering {

  /** The kept elements, in order. */
  function Filter<T>(xs: seq<T>, keep: T -> bool): (r: seq<T>)
    ensures |r| <= |xs|
    decreases |xs|
  {
    if xs == [] then []
    else
      var init := Filter(xs[..|xs| - 1], keep);
      if keep(xs[|xs| - 1]) then init + [xs[|xs| - 1]] else init
  }

  /** The positions of the kept elements. */
  function FilterPositions<T>(xs: seq<T>, keep: T -> bool): seq<int>
    decreases |xs|
  {
    if xs == [] then []
    else
      var init := FilterPositions(xs[..|xs| - 1], keep);
      if keep(xs[|xs| - 1]) then init + [|xs| - 1] else init
  }

  /** The result is a subsequence: element k sits at an increasing position
      of the input, and that element is kept. */
  lemma {:induction false} FilterSubsequence<T>(xs: seq<T>, keep: T -> bool)
    ensures |FilterPositions(xs, keep)| == |Filter(xs, keep)|
    ensures forall k :: 0 <= k < |FilterPositions(xs, keep)| ==>
              0 <= FilterPositions(xs, keep)[k] < |xs| &&
              xs[FilterPositions(xs, keep)[k]] == Filter(xs, keep)[k] &&
              keep(Filter(xs, keep)[k])
    ensures forall k, l :: 0 <= k < l < |FilterPositions(xs, keep)| ==>
              FilterPositions(xs, keep)[k] < FilterPositions(xs, keep)[l]
    decreases |xs|
  {
    if xs != [] {
      var n := |xs| - 1;
      var init := xs[..n];
      FilterSubsequence(init, keep);
      var p, f := FilterPositions(init, keep), Filter(init, keep);
      assert forall k :: 0 <= k < |p| ==> xs[p[k]] == init[p[k]];
      if keep(xs[n]) {
        assert FilterPositions(xs, keep) == p + [n];
        assert Filter(xs, keep) == f + [xs[n]];
      } else {
        assert FilterPositions(xs, keep) == p;
        assert Filter(xs, keep) == f;
      }
    }
  }

  /** Membership: an element is kept iff it is in the input and passes. */
  lemma {:induction false} FilterMembers<T>(xs: seq<T>, keep: T -> bool)
    ensures forall x :: x in Filter(xs, keep) <==> x in xs && keep(x)
    decreases |xs|
  {
    if xs != [] {
      var n := |xs| - 1;
      FilterMembers(xs[..n], keep);
      assert xs == xs[..n] + [xs[n]];
    }
  }

  /** A stricter test keeps no more elements. */
  lemma {:induction false} FilterMonotone<T>(xs: seq<T>, strict: T -> bool, loose: T -> bool)
    requires forall k :: 0 <= k < |xs| && strict(xs[k]) ==> loose(xs[k])
    ensures |Filter(xs, strict)| <= |Filter(xs, loose)|
    decreases |xs|
  {
    if xs != [] {
      FilterMonotone(xs[..|xs| - 1], strict, loose);
    }
  }

  /** Nothing passes: the result is empty. */
  lemma {:induction false} FilterNone<T>(xs: seq<T>, keep: T -> bool)
    requires forall k :: 0 <= k < |xs| ==> !keep(xs[k])
    ensures Filter(xs, keep) == []
    decreases |xs|
  {
    if xs != [] {
      FilterNone(xs[..|xs| - 1], keep);
    }
  }
}
