/** Array.prototype.filter on sequences, and the facts about it that the
    catalog filter relies on. The callback is any total function. */
module Sequences {

  /** `xs.filter(keep)`: the elements that `keep` accepts, in their order. */
  function FilterBy<T>(xs: seq<T>, keep: T -> bool): (r: seq<T>)
    ensures |r| <= |xs|
  {
    if xs == [] then []
    else (if keep(xs[0]) then [xs[0]] else []) + FilterBy(xs[1..], keep)
  }

  /** An element is in the result exactly when it is in `xs` and accepted. */
  lemma {:induction false} FilterByMembership<T(!new)>(xs: seq<T>, keep: T -> bool)
    ensures forall x :: x in FilterBy(xs, keep) <==> x in xs && keep(x)
  {
    if xs != [] {
      FilterByMembership(xs[1..], keep);
      assert xs == [xs[0]] + xs[1..];
    }
  }

  /** `idx` lists positions of `whole`, strictly increasing, and picking them
      out of `whole` gives `part`: `part` is an order-preserving subsequence. */
  ghost predicate PicksOut<T>(part: seq<T>, whole: seq<T>, idx: seq<nat>) {
    |idx| == |part| &&
    (forall k :: 0 <= k < |idx| ==> idx[k] < |whole| && whole[idx[k]] == part[k]) &&
    (forall k, l :: 0 <= k < l < |idx| ==> idx[k] < idx[l])
  }

  /** Every position of `idx` moved one to the right. */
  function Shift(idx: seq<nat>): (r: seq<nat>)
    ensures |r| == |idx| && forall k :: 0 <= k < |idx| ==> r[k] == idx[k] + 1
  {
    seq(|idx|, k requires 0 <= k < |idx| => idx[k] + 1)
  }

  /** Picking out of the tail of `whole` is picking out of `whole` at the
      shifted positions, none of which is 0. */
  lemma ShiftPicksOut<T>(part: seq<T>, whole: seq<T>, idx: seq<nat>)
    requires whole != [] && PicksOut(part, whole[1..], idx)
    ensures PicksOut(part, whole, Shift(idx))
  {
  }

  /** Putting the first element of `whole` in front of a pick that avoids
      position 0 is again a pick. */
  lemma ConsPicksOut<T>(part: seq<T>, whole: seq<T>, idx: seq<nat>)
    requires whole != [] && PicksOut(part, whole, idx)
    requires forall k :: 0 <= k < |idx| ==> idx[k] > 0
    ensures PicksOut([whole[0]] + part, whole, [0] + idx)
  {
    var both := [0] + idx;
    assert forall k :: 1 <= k < |both| ==> both[k] == idx[k - 1];
  }

  /** The positions kept from `xs`, given whether its first element is kept
      and the positions kept from its tail. */
  function ConsPositions(keepFirst: bool, rest: seq<nat>): seq<nat> {
    if keepFirst then [0] + Shift(rest) else Shift(rest)
  }

  /** Position `j` of `xs` is kept exactly when the tail's position `j - 1`
      is, or `j` is 0 and the first element is kept. */
  lemma ConsPositionsMembership<T>(xs: seq<T>, keep: T -> bool, rest: seq<nat>)
    requires xs != []
    requires forall j :: 0 <= j < |xs| - 1 ==> (j in rest <==> keep(xs[1..][j]))
    ensures forall j :: 0 <= j < |xs| ==> (j in ConsPositions(keep(xs[0]), rest) <==> keep(xs[j]))
  {
    var idx := ConsPositions(keep(xs[0]), rest);
    var shifted := Shift(rest);
    assert forall k :: 0 <= k < |shifted| ==> shifted[k] > 0;
    forall j | 1 <= j < |xs| ensures (j in idx <==> keep(xs[j])) {
      assert xs[1..][j - 1] == xs[j];
      assert j in idx <==> j in shifted;
      if j in shifted {
        var k :| 0 <= k < |shifted| && shifted[k] == j;
        assert rest[k] == j - 1;
      }
      if j - 1 in rest {
        var k :| 0 <= k < |rest| && rest[k] == j - 1;
        assert shifted[k] == j;
      }
    }
  }

  /** The result is `xs` with exactly the rejected positions removed. */
  lemma {:induction false} FilterByKeepsExactlyThePassingPositions<T>(xs: seq<T>, keep: T -> bool)
    returns (idx: seq<nat>)
    ensures PicksOut(FilterBy(xs, keep), xs, idx)
    ensures forall j :: 0 <= j < |xs| ==> (j in idx <==> keep(xs[j]))
  {
    if xs == [] {
      idx := [];
    } else {
      var tail := FilterBy(xs[1..], keep);
      var rest := FilterByKeepsExactlyThePassingPositions(xs[1..], keep);
      ShiftPicksOut(tail, xs, rest);
      if keep(xs[0]) {
        ConsPicksOut(tail, xs, Shift(rest));
      }
      ConsPositionsMembership(xs, keep, rest);
      idx := ConsPositions(keep(xs[0]), rest);
    }
  }

  /** A callback that accepts everything keeps the whole sequence. */
  lemma {:induction false} FilterByKeepingAllIsIdentity<T>(xs: seq<T>, keep: T -> bool)
    requires forall x :: keep(x)
    ensures FilterBy(xs, keep) == xs
  {
    if xs != [] {
      FilterByKeepingAllIsIdentity(xs[1..], keep);
    }
  }

  /** Filtering a concatenation filters each part. */
  lemma {:induction false} FilterByDistributesOverConcat<T>(a: seq<T>, b: seq<T>, keep: T -> bool)
    ensures FilterBy(a + b, keep) == FilterBy(a, keep) + FilterBy(b, keep)
  {
    if a != [] {
      var head := if keep(a[0]) then [a[0]] else [];
      assert (a + b)[0] == a[0] && (a + b)[1..] == a[1..] + b;
      assert FilterBy(a + b, keep) == head + FilterBy(a[1..] + b, keep);
      FilterByDistributesOverConcat(a[1..], b, keep);
      assert head + (FilterBy(a[1..], keep) + FilterBy(b, keep))
          == (head + FilterBy(a[1..], keep)) + FilterBy(b, keep);
    } else {
      assert a + b == b;
    }
  }

  /** Filtering by `first` and then by `second` is filtering once by a
      callback that accepts what both accept. */
  lemma {:induction false} FilterByTwiceIsFilterByBoth<T>(xs: seq<T>, first: T -> bool, second: T -> bool, both: T -> bool)
    requires forall x :: both(x) == (first(x) && second(x))
    ensures FilterBy(FilterBy(xs, first), second) == FilterBy(xs, both)
  {
    if xs != [] {
      var head := if first(xs[0]) then [xs[0]] else [];
      FilterByDistributesOverConcat(head, FilterBy(xs[1..], first), second);
      FilterByTwiceIsFilterByBoth(xs[1..], first, second, both);
    }
  }

  /** A callback that accepts no element of `xs` leaves nothing. */
  lemma {:induction false} FilterByRejectingAllIsEmpty<T>(xs: seq<T>, keep: T -> bool)
    requires forall k :: 0 <= k < |xs| ==> !keep(xs[k])
    ensures FilterBy(xs, keep) == []
  {
    if xs != [] {
      FilterByRejectingAllIsEmpty(xs[1..], keep);
    }
  }

  /** Two callbacks that agree everywhere filter alike. */
  lemma {:induction false} FilterByAgreeingCallbacks<T>(xs: seq<T>, keep: T -> bool, other: T -> bool)
    requires forall x :: keep(x) == other(x)
    ensures FilterBy(xs, keep) == FilterBy(xs, other)
  {
    if xs != [] {
      FilterByAgreeingCallbacks(xs[1..], keep, other);
    }
  }
}
