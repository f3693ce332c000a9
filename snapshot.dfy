/** What the simulation server reports about one step: the status class
    of every truck and container, and the aggregate efficiency and
    critical count. Percentages are compared exactly, by cross-multiplying. */
module Snapshot {
  import opened Containers
  import opened Lookup
  import opened Policy
  import opened World

  /** The four truck classes, in the order a filling truck passes them. */
  datatype TruckStatus = Empty | Collecting | HalfFull | Full

  function Rank(s: TruckStatus): nat {
    match s
    case Empty => 0
    case Collecting => 1
    case HalfFull => 2
    case Full => 3
  }

  /** `get_truck_status`: the load percentage against 90 and 50, then
      whether anything is loaded. The percentage divides by the capacity. */
  function TruckStatusOf(t: Truck): (s: TruckStatus)
    requires t.capacity > 0
    ensures s == Full <==> 100 * t.load >= 90 * t.capacity
    ensures s == HalfFull <==> 100 * t.load >= 50 * t.capacity && 100 * t.load < 90 * t.capacity
    ensures s == Collecting <==> t.load > 0 && 100 * t.load < 50 * t.capacity
    ensures s == Empty <==> t.load <= 0
  {
    if 10 * t.load >= 9 * t.capacity then Full
    else if 2 * t.load >= t.capacity then HalfFull
    else if t.load > 0 then Collecting
    else Empty
  }

  /** More load never gives an earlier class. */
  lemma StatusMonotone(t: Truck, u: Truck)
    requires t.capacity > 0 && u.capacity == t.capacity && t.load <= u.load
    ensures Rank(TruckStatusOf(t)) <= Rank(TruckStatusOf(u))
  {
  }

  /** The truck's own 80% dump rule sits between the two upper classes:
      a full truck wants to dump, and a truck that wants to dump is at
      least half full. */
  lemma DumpRuleBetweenClasses(t: Truck)
    requires t.capacity > 0
    ensures TruckStatusOf(t) == Full ==> WantsDump(t)
    ensures WantsDump(t) ==> TruckStatusOf(t) in {HalfFull, Full}
  {
  }

  /** The container classes, most urgent first. */
  datatype ContainerStatus = OverflowingBin | CriticalBin | Medium | Normal

  /** `get_container_status`: overflowing, then critical, then 70%. */
  function ContainerStatusOf(b: Bin): (s: ContainerStatus)
    ensures s == OverflowingBin <==> Overflowing(b)
    ensures s == CriticalBin <==> Critical(b) && !Overflowing(b)
    ensures b.capacity >= 0 ==> (s == Medium <==> 7 * b.capacity <= 10 * b.fill < 9 * b.capacity)
    ensures b.capacity >= 0 ==> (s == Normal <==> 10 * b.fill < 7 * b.capacity)
  {
    if Overflowing(b) then OverflowingBin
    else if Critical(b) then CriticalBin
    else if 10 * b.fill >= 7 * b.capacity then Medium
    else Normal
  }

  /** The two urgent classes are exactly the critical containers. */
  lemma UrgentIsCritical(b: Bin)
    requires b.capacity >= 0
    ensures ContainerStatusOf(b) in {OverflowingBin, CriticalBin} <==> Critical(b)
  {
    OverflowingIsCritical(b);
  }

  /** The snapshot efficiency: collected over all trash in the system as
      a percentage, 0 when there is none. */
  function SnapshotEfficiency(collected: int, inSystem: int): (e: real)
    ensures inSystem <= 0 ==> e == 0.0
    ensures inSystem > 0 ==> e * inSystem as real == 100.0 * collected as real
    ensures 0 <= collected <= inSystem ==> 0.0 <= e <= 100.0
  {
    if inSystem > 0 then collected as real / inSystem as real * 100.0 else 0.0
  }

  /** With nothing negative, the snapshot figure and the end-of-run figure
      agree: they differ only in how they guard an empty system. */
  lemma SnapshotMatchesEnd(collected: int, remaining: int)
    ensures 0 <= collected && 0 <= remaining ==>
              SnapshotEfficiency(collected, remaining + collected) == Efficiency(collected, remaining)
  {
    if 0 <= collected && 0 <= remaining && remaining + collected > 0 {
      var t := (remaining + collected) as real;
      assert SnapshotEfficiency(collected, remaining + collected) * t == 100.0 * collected as real;
      assert Efficiency(collected, remaining) * t == 100.0 * collected as real;
    }
  }

  /** `sum(1 for container in containers if container.is_critical())`. */
  function CriticalCount(bins: seq<Bin>): nat {
    if |bins| == 0 then 0 else (if Critical(bins[0]) then 1 else 0) + CriticalCount(bins[1..])
  }

  /** The count is the number of critical positions the trucks steer by. */
  lemma {:induction false} CriticalCountIsPositions(bins: seq<Bin>)
    ensures CriticalCount(bins) == |CriticalPositions(bins)|
  {
    if |bins| > 0 {
      CriticalCountIsPositions(bins[1..]);
    }
  }

  /** The count is the number of critical containers, overflowing ones
      included. */
  lemma CriticalCountIsSize(bins: seq<Bin>)
    ensures CriticalCount(bins) == |set i | 0 <= i < |bins| && Critical(bins[i])|
  {
    SuffixCount(bins, 0);
    assert bins[0..] == bins;
  }

  lemma {:induction false} SuffixCount(bins: seq<Bin>, k: nat)
    requires k <= |bins|
    ensures CriticalCount(bins[k..]) == |set i | k <= i < |bins| && Critical(bins[i])|
    decreases |bins| - k
  {
    var s := set i | k <= i < |bins| && Critical(bins[i]);
    if k == |bins| {
      assert s == {};
    } else {
      SuffixCount(bins, k + 1);
      var s1 := set i | k + 1 <= i < |bins| && Critical(bins[i]);
      assert bins[k..][1..] == bins[k + 1..];
      assert bins[k..][0] == bins[k];
      if Critical(bins[k]) {
        assert s == s1 + {k};
        assert k !in s1;
      } else {
        assert s == s1;
      }
    }
  }

  lemma {:induction false} TotalLoadNonNegative(trucks: seq<Truck>)
    requires forall i :: 0 <= i < |trucks| ==> trucks[i].load >= 0
    ensures TotalLoad(trucks) >= 0
  {
    if |trucks| > 0 {
      TotalLoadNonNegative(trucks[1..]);
    }
  }

  lemma {:induction false} TotalFillNonNegative(bins: seq<Bin>)
    requires forall i :: 0 <= i < |bins| ==> bins[i].fill >= 0
    ensures TotalFill(bins) >= 0
  {
    if |bins| > 0 {
      TotalFillNonNegative(bins[1..]);
    }
  }

  lemma TotalsNonNegative(w: World)
    ensures WorldOk(w) ==> TotalLoad(w.trucks) >= 0 && TotalFill(w.bins) >= 0
  {
    if WorldOk(w) {
      assert forall i :: 0 <= i < |w.trucks| ==> TruckOk(w.trucks[i]);
      TotalLoadNonNegative(w.trucks);
      TotalFillNonNegative(w.bins);
    }
  }

  /** The aggregates of one snapshot. */
  datatype Stats = Stats(collected: int, inSystem: int, efficiency: real, critical: nat)

  /** The aggregates of `extract_simulation_data`: the loads carried, all
      trash in the system, the efficiency and the critical count. In a
      world that keeps its invariant the efficiency is a percentage equal
      to the end-of-run figure, and the count is that of the critical
      positions. */
  function StatsOf(w: World): (s: Stats)
    ensures s.inSystem == TotalFill(w.bins) + s.collected && s.collected == TotalLoad(w.trucks)
    ensures s.critical == |CriticalPositions(w.bins)| <= |w.bins|
    ensures WorldOk(w) ==> 0 <= s.collected <= s.inSystem && 0.0 <= s.efficiency <= 100.0
    ensures WorldOk(w) ==> s.efficiency == EndEfficiency(w)
  {
    var collected := TotalLoad(w.trucks);
    var inSystem := TotalFill(w.bins) + collected;
    CriticalCountIsPositions(w.bins);
    TotalsNonNegative(w);
    SnapshotMatchesEnd(collected, TotalFill(w.bins));
    Stats(collected, inSystem, SnapshotEfficiency(collected, inSystem), CriticalCount(w.bins))
  }
}
