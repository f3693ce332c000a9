/** The environment's read-only queries over its ordered container list:
    the first container at a position and the positions of the critical and
    the overflowing containers, in container order. */
module Lookup {
  import opened Grid
  import opened Containers

  datatype Option<T> = None | Some(value: T)

  /** Index of the first container standing at `p`, if any. */
  function FirstAt(bins: seq<Bin>, p: Pos): (r: Option<nat>)
    ensures r.None? <==> forall i :: 0 <= i < |bins| ==> bins[i].pos != p
    ensures r.Some? ==> r.value < |bins| && bins[r.value].pos == p
    ensures r.Some? ==> forall i :: 0 <= i < r.value ==> bins[i].pos != p
  {
    if |bins| == 0 then None
    else if bins[0].pos == p then Some(0)
    else match FirstAt(bins[1..], p)
      case None => None
      case Some(k) => Some(k + 1)
  }

  /** Positions of the critical containers, in container order. */
  function CriticalPositions(bins: seq<Bin>): (r: seq<Pos>)
    ensures |r| <= |bins|
    ensures forall i :: 0 <= i < |bins| && Critical(bins[i]) ==> bins[i].pos in r
    ensures forall p :: p in r ==> exists i :: 0 <= i < |bins| && Critical(bins[i]) && bins[i].pos == p
  {
    if |bins| == 0 then []
    else
      var rest := CriticalPositions(bins[1..]);
      assert forall i :: 1 <= i < |bins| ==> bins[i] == bins[1..][i - 1];
      if Critical(bins[0]) then [bins[0].pos] + rest else rest
  }

  /** Positions of the overflowing containers, in container order. */
  function OverflowingPositions(bins: seq<Bin>): (r: seq<Pos>)
    ensures |r| <= |bins|
    ensures forall i :: 0 <= i < |bins| && Overflowing(bins[i]) ==> bins[i].pos in r
    ensures forall p :: p in r ==> exists i :: 0 <= i < |bins| && Overflowing(bins[i]) && bins[i].pos == p
  {
    if |bins| == 0 then []
    else
      var rest := OverflowingPositions(bins[1..]);
      assert forall i :: 1 <= i < |bins| ==> bins[i] == bins[1..][i - 1];
      if Overflowing(bins[0]) then [bins[0].pos] + rest else rest
  }

  /** `idx` strictly increasing. */
  predicate Increasing(idx: seq<nat>) {
    forall a, b :: 0 <= a < b < |idx| ==> idx[a] < idx[b]
  }

  /** The indices from `lo` on of the critical containers, in order. */
  function CriticalIndices(bins: seq<Bin>, lo: nat): seq<nat>
    requires lo <= |bins|
    decreases |bins| - lo
  {
    if lo == |bins| then []
    else if Critical(bins[lo]) then [lo] + CriticalIndices(bins, lo + 1)
    else CriticalIndices(bins, lo + 1)
  }

  /** The list is strictly increasing and holds exactly the indices from
      `lo` on of the critical containers. */
  lemma {:induction false} CriticalIndicesExact(bins: seq<Bin>, lo: nat)
    requires lo <= |bins|
    ensures var idx := CriticalIndices(bins, lo);
            Increasing(idx) && (forall k :: 0 <= k < |idx| ==> lo <= idx[k] < |bins|) &&
            forall i :: lo <= i < |bins| ==> (i in idx <==> Critical(bins[i]))
    decreases |bins| - lo
  {
    if lo < |bins| {
      CriticalIndicesExact(bins, lo + 1);
    }
  }

  /** The indices from `lo` on of the overflowing containers, in order. */
  function OverflowingIndices(bins: seq<Bin>, lo: nat): seq<nat>
    requires lo <= |bins|
    decreases |bins| - lo
  {
    if lo == |bins| then []
    else if Overflowing(bins[lo]) then [lo] + OverflowingIndices(bins, lo + 1)
    else OverflowingIndices(bins, lo + 1)
  }

  /** The list is strictly increasing and holds exactly the indices from
      `lo` on of the overflowing containers. */
  lemma {:induction false} OverflowingIndicesExact(bins: seq<Bin>, lo: nat)
    requires lo <= |bins|
    ensures var idx := OverflowingIndices(bins, lo);
            Increasing(idx) && (forall k :: 0 <= k < |idx| ==> lo <= idx[k] < |bins|) &&
            forall i :: lo <= i < |bins| ==> (i in idx <==> Overflowing(bins[i]))
    decreases |bins| - lo
  {
    if lo < |bins| {
      OverflowingIndicesExact(bins, lo + 1);
    }
  }

  /** The critical list holds the positions of exactly the critical
      containers, one entry each, in container order (with
      `CriticalIndicesExact`). */
  lemma CriticalPositionsInOrder(bins: seq<Bin>)
    ensures var r, idx := CriticalPositions(bins), CriticalIndices(bins, 0);
            |r| == |idx| && forall k :: 0 <= k < |r| ==> idx[k] < |bins| && r[k] == bins[idx[k]].pos
  {
    CriticalInOrderFrom(bins, 0);
    assert bins[0..] == bins;
  }

  lemma {:induction false} CriticalInOrderFrom(bins: seq<Bin>, lo: nat)
    requires lo <= |bins|
    ensures var r, idx := CriticalPositions(bins[lo..]), CriticalIndices(bins, lo);
            |r| == |idx| && forall k :: 0 <= k < |r| ==> idx[k] < |bins| && r[k] == bins[idx[k]].pos
    decreases |bins| - lo
  {
    if lo < |bins| {
      CriticalInOrderFrom(bins, lo + 1);
      assert bins[lo..][1..] == bins[lo + 1..];
      assert bins[lo..][0] == bins[lo];
    }
  }

  /** The overflowing list holds the positions of exactly the overflowing
      containers, one entry each, in container order (with
      `OverflowingIndicesExact`). */
  lemma OverflowingPositionsInOrder(bins: seq<Bin>)
    ensures var r, idx := OverflowingPositions(bins), OverflowingIndices(bins, 0);
            |r| == |idx| && forall k :: 0 <= k < |r| ==> idx[k] < |bins| && r[k] == bins[idx[k]].pos
  {
    OverflowingInOrderFrom(bins, 0);
    assert bins[0..] == bins;
  }

  lemma {:induction false} OverflowingInOrderFrom(bins: seq<Bin>, lo: nat)
    requires lo <= |bins|
    ensures var r, idx := OverflowingPositions(bins[lo..]), OverflowingIndices(bins, lo);
            |r| == |idx| && forall k :: 0 <= k < |r| ==> idx[k] < |bins| && r[k] == bins[idx[k]].pos
    decreases |bins| - lo
  {
    if lo < |bins| {
      OverflowingInOrderFrom(bins, lo + 1);
      assert bins[lo..][1..] == bins[lo + 1..];
      assert bins[lo..][0] == bins[lo];
    }
  }

  /** An increasing list has as many entries as distinct values. */
  lemma {:induction false} IncreasingCard(idx: seq<nat>)
    requires Increasing(idx)
    ensures |set i: int | i in idx| == |idx|
  {
    if |idx| > 0 {
      var tail := idx[1..];
      IncreasingCard(tail);
      assert (set i: int | i in idx) == (set i: int | i in tail) + {idx[0] as int};
      assert idx[0] !in tail;
    }
  }

  /** The critical list has one entry per critical container. */
  lemma CriticalPositionsCount(bins: seq<Bin>)
    ensures |CriticalPositions(bins)| == |set i | 0 <= i < |bins| && Critical(bins[i])|
  {
    CriticalPositionsInOrder(bins);
    var idx := CriticalIndices(bins, 0);
    CriticalIndicesExact(bins, 0);
    IncreasingCard(idx);
    assert (set i | 0 <= i < |bins| && Critical(bins[i])) == (set i: int | i in idx);
  }

  /** The overflowing list has one entry per overflowing container: the
      multiplier of the overflow penalty. */
  lemma OverflowingPositionsCount(bins: seq<Bin>)
    ensures |OverflowingPositions(bins)| == |set i | 0 <= i < |bins| && Overflowing(bins[i])|
  {
    OverflowingPositionsInOrder(bins);
    var idx := OverflowingIndices(bins, 0);
    OverflowingIndicesExact(bins, 0);
    IncreasingCard(idx);
    assert (set i | 0 <= i < |bins| && Overflowing(bins[i])) == (set i: int | i in idx);
  }

  /** `a` is `b` with some elements dropped, order kept. */
  predicate IsSubseq<T(==)>(a: seq<T>, b: seq<T>)
    decreases |b|
  {
    if a == [] then true
    else if b == [] then false
    else (a[0] == b[0] && IsSubseq(a[1..], b[1..])) || IsSubseq(a, b[1..])
  }

  predicate CapacitiesNonNegative(bins: seq<Bin>) {
    forall i :: 0 <= i < |bins| ==> bins[i].capacity >= 0
  }

  /** With non-negative capacities, the overflowing list is a sub-list of the
      critical list. */
  lemma {:induction false} OverflowingSubseqOfCritical(bins: seq<Bin>)
    requires CapacitiesNonNegative(bins)
    ensures IsSubseq(OverflowingPositions(bins), CriticalPositions(bins))
  {
    if |bins| > 0 {
      var o, c := OverflowingPositions(bins[1..]), CriticalPositions(bins[1..]);
      OverflowingSubseqOfCritical(bins[1..]);
      OverflowingIsCritical(bins[0]);
      if Overflowing(bins[0]) {
        assert OverflowingPositions(bins) == [bins[0].pos] + o;
        assert CriticalPositions(bins) == [bins[0].pos] + c;
      } else if Critical(bins[0]) {
        SubseqOfLonger(o, c, bins[0].pos);
      }
    }
  }

  lemma {:induction false} SubseqOfLonger<T>(a: seq<T>, b: seq<T>, x: T)
    requires IsSubseq(a, b)
    ensures IsSubseq(a, [x] + b)
  {
    assert ([x] + b)[1..] == b;
  }
}
