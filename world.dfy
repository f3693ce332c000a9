/** The environment as a value: the fixed setup, one step (every container
    generates, then every truck acts, in list order), the invariants a step
    keeps, and the end-of-run efficiency. */
module World {
  import opened Grid
  import opened Containers
  import opened Lookup
  import opened QLearning
  import opened Policy

  /** The fixed container placement and truck start corners of the setup. */
  const ContainerPositions: seq<Pos> := [Pos(1, 1), Pos(6, 1), Pos(2, 5), Pos(5, 6), Pos(3, 3)]
  const StartPositions: seq<Pos> := [Pos(0, 0), Pos(7, 0), Pos(0, 7)]

  datatype World = World(bins: seq<Bin>, trucks: seq<Truck>)

  /** The draws one container step consumes: the uniform coin and the amount. */
  datatype BinDraw = BinDraw(coin: real, amount: int)

  predicate DrawsFit(density: real, draws: seq<BinDraw>) {
    forall i :: 0 <= i < |draws| ==> DrawInRange(density, draws[i].amount)
  }

  predicate AllRowsComplete(trucks: seq<Truck>) {
    forall i :: 0 <= i < |trucks| ==> RowsComplete(trucks[i].q)
  }

  /** What every step keeps. */
  predicate WorldOk(w: World) {
    BinsOk(w.bins) && TrucksOk(w.trucks)
  }

  /** Every container at most twice its capacity. */
  predicate FillsBounded(bins: seq<Bin>) {
    forall i :: 0 <= i < |bins| ==> bins[i].fill <= 2 * bins[i].capacity
  }

  /** `bins` and `bins'` hold the same containers and no fill rose. */
  predicate Drained(bins: seq<Bin>, bins': seq<Bin>) {
    |bins'| == |bins| &&
    forall i :: 0 <= i < |bins| ==>
      bins'[i].pos == bins[i].pos && bins'[i].capacity == bins[i].capacity && bins'[i].fill <= bins[i].fill
  }

  /** Tables and rates as `load_q_table` may have restored them. */
  predicate SavedOk(saved: Option<SavedTable>) {
    saved.Some? ==> RowsComplete(saved.value.q)
  }

  /** The setup: five containers with the drawn initial fills, three empty
      trucks at the start corners. Every truck loads the same saved table:
      `load_q_table` runs in `setup`, before the environment assigns the
      truck its id, so it always reads the file of truck 0. */
  function Initial(capacity: int, containerLimit: int, epsilon: real, alpha: real, gamma: real,
                   saved: Option<SavedTable>, fills: seq<int>): (w: World)
    requires |fills| == |ContainerPositions|
    ensures |w.bins| == 5 && |w.trucks| == 3
    ensures forall i :: 0 <= i < 5 ==> w.bins[i] == Bin(ContainerPositions[i], containerLimit, fills[i])
    ensures forall i :: 0 <= i < 3 ==>
              w.trucks[i] == Truck(StartPositions[i], 0, capacity, LoadedTable(saved), LoadedEpsilon(epsilon, saved), alpha, gamma)
    ensures capacity >= 0 && containerLimit >= 0 && SavedOk(saved) && (forall i :: 0 <= i < 5 ==> 5 <= fills[i] <= 20) ==>
              WorldOk(w)
  {
    World(seq(5, i requires 0 <= i < 5 => Bin(ContainerPositions[i], containerLimit, fills[i])),
          seq(3, i requires 0 <= i < 3 =>
            Truck(StartPositions[i], 0, capacity, LoadedTable(saved), LoadedEpsilon(epsilon, saved), alpha, gamma)))
  }

  /** Every container generates, in list order. */
  function StepBins(bins: seq<Bin>, density: real, draws: seq<BinDraw>): (r: seq<Bin>)
    requires |draws| == |bins| && DrawsFit(density, draws)
    ensures |r| == |bins|
    ensures forall i :: 0 <= i < |bins| ==>
              r[i].pos == bins[i].pos && r[i].capacity == bins[i].capacity &&
              r[i].fill == GeneratedFill(bins[i].fill, bins[i].capacity, draws[i].coin, density, draws[i].amount)
    ensures BinsOk(bins) ==> BinsOk(r)
    ensures FillsBounded(bins) ==> FillsBounded(r)
  {
    seq(|bins|, i requires 0 <= i < |bins| =>
      bins[i].(fill := GeneratedFill(bins[i].fill, bins[i].capacity, draws[i].coin, density, draws[i].amount)))
  }

  predicate TrucksOk(trucks: seq<Truck>) {
    forall i :: 0 <= i < |trucks| ==> TruckOk(trucks[i])
  }

  /** The first `k` trucks step in list order, each seeing the containers
      as the trucks before it left them. */
  function RunTrucks(bins: seq<Bin>, trucks: seq<Truck>, draws: seq<Draw>, k: nat): (r: World)
    requires k <= |trucks| == |draws| && AllRowsComplete(trucks)
    ensures |r.trucks| == k && |r.bins| == |bins|
    decreases k
  {
    if k == 0 then World(bins, [])
    else
      var prev := RunTrucks(bins, trucks, draws, k - 1);
      var s := TruckStep(trucks[k - 1], prev.bins, draws[k - 1]);
      World(s.bins, prev.trucks + [s.truck])
  }

  lemma SnocOk(ts: seq<Truck>, t: Truck)
    requires TrucksOk(ts) && TruckOk(t)
    ensures TrucksOk(ts + [t])
  {
    forall i | 0 <= i < |ts + [t]| ensures TruckOk((ts + [t])[i]) {
      if i < |ts| { assert (ts + [t])[i] == ts[i]; }
    }
  }

  lemma OkIsComplete(ts: seq<Truck>)
    requires TrucksOk(ts)
    ensures AllRowsComplete(ts)
  {
    forall i | 0 <= i < |ts| ensures RowsComplete(ts[i].q) {
      assert TruckOk(ts[i]);
    }
  }

  lemma DrainedTrans(a: seq<Bin>, b: seq<Bin>, c: seq<Bin>)
    requires Drained(a, b) && Drained(b, c)
    ensures Drained(a, c)
  {
  }

  /** One environment step: all containers first, then all trucks. */
  function EnvStep(w: World, density: real, binDraws: seq<BinDraw>, truckDraws: seq<Draw>): (r: World)
    requires |binDraws| == |w.bins| && DrawsFit(density, binDraws)
    requires |truckDraws| == |w.trucks| && AllRowsComplete(w.trucks)
    ensures |r.trucks| == |w.trucks| && |r.bins| == |w.bins|
  {
    RunTrucks(StepBins(w.bins, density, binDraws), w.trucks, truckDraws, |w.trucks|)
  }

  /** One truck step keeps the invariant, and only drains containers. */
  lemma TruckStepKeeps(t: Truck, bins: seq<Bin>, d: Draw)
    requires TruckOk(t) && BinsOk(bins)
    ensures var r := TruckStep(t, bins, d);
            TruckOk(r.truck) && BinsOk(r.bins) && Drained(bins, r.bins)
  {
    var c := ChooseAction(t, bins, d.coin, d.pick);
    var t1 := t.(load := c.load);
    var o := Execute(t1, c.action, bins);
    assert TruckStep(t, bins, d).bins == o.bins;
    if c.action == Collect {
      CollectMovesTrash(t1, bins);
      assert o.bins == CollectHere(t1, bins).bins;
    } else {
      assert o.bins == bins;
    }
  }

  /** The trucks' pass keeps the invariant, and only drains containers. */
  lemma {:induction false} RunTrucksKeeps(bins: seq<Bin>, trucks: seq<Truck>, draws: seq<Draw>, k: nat)
    requires k <= |trucks| == |draws|
    requires BinsOk(bins) && TrucksOk(trucks)
    ensures AllRowsComplete(trucks)
    ensures var r := RunTrucks(bins, trucks, draws, k);
            BinsOk(r.bins) && TrucksOk(r.trucks) && Drained(bins, r.bins)
    decreases k
  {
    OkIsComplete(trucks);
    if k == 0 {
      assert Drained(bins, bins);
    } else {
      RunTrucksKeeps(bins, trucks, draws, k - 1);
      var prev := RunTrucks(bins, trucks, draws, k - 1);
      var s := TruckStep(trucks[k - 1], prev.bins, draws[k - 1]);
      assert RunTrucks(bins, trucks, draws, k) == World(s.bins, prev.trucks + [s.truck]);
      assert TruckOk(trucks[k - 1]);
      TruckStepKeeps(trucks[k - 1], prev.bins, draws[k - 1]);
      SnocOk(prev.trucks, s.truck);
      DrainedTrans(bins, prev.bins, s.bins);
    }
  }

  /** A step keeps every container on the board and non-negative and every
      truck on the board, within its capacity and with complete rows; with
      all containers within twice their capacity, they stay so. */
  lemma {:induction false} EnvStepKeeps(w: World, density: real, binDraws: seq<BinDraw>, truckDraws: seq<Draw>)
    requires |binDraws| == |w.bins| && DrawsFit(density, binDraws)
    requires |truckDraws| == |w.trucks|
    requires WorldOk(w)
    ensures AllRowsComplete(w.trucks)
    ensures WorldOk(EnvStep(w, density, binDraws, truckDraws))
    ensures FillsBounded(w.bins) ==> FillsBounded(EnvStep(w, density, binDraws, truckDraws).bins)
  {
    var bins := StepBins(w.bins, density, binDraws);
    RunTrucksKeeps(bins, w.trucks, truckDraws, |w.trucks|);
    var r := RunTrucks(bins, w.trucks, truckDraws, |w.trucks|);
    assert EnvStep(w, density, binDraws, truckDraws) == r;
    assert WorldOk(r);
  }

  /** Sum of truck loads. */
  function TotalLoad(trucks: seq<Truck>): int {
    if |trucks| == 0 then 0 else trucks[0].load + TotalLoad(trucks[1..])
  }

  /** What a truck step takes from the containers is exactly what its load
      gains after the decision (a dump at a corner happens in deciding). */
  lemma TruckStepMovesTrash(t: Truck, bins: seq<Bin>, d: Draw)
    requires RowsComplete(t.q)
    ensures TotalFill(bins) - TotalFill(TruckStep(t, bins, d).bins)
            == TruckStep(t, bins, d).truck.load - ChooseAction(t, bins, d.coin, d.pick).load
  {
    var c := ChooseAction(t, bins, d.coin, d.pick);
    ExecuteMovesTrash(t.(load := c.load), c.action, bins);
  }

  /** End-of-run efficiency: collected over all trash, the denominator
      guarded by `max(1, ...)`. */
  function Efficiency(collected: int, remaining: int): (e: real)
    ensures collected <= 0 && remaining >= -collected ==> e <= 0.0
    ensures 0 <= collected && 0 <= remaining ==> 0.0 <= e <= 100.0
    ensures 0 <= collected && 0 <= remaining && collected + remaining > 0 ==>
              e * (collected + remaining) as real == 100.0 * collected as real
  {
    var total := if remaining + collected >= 1 then remaining + collected else 1;
    (collected as real / total as real) * 100.0
  }

  /** `end()` of the environment, on the loads and the fills left. */
  function EndEfficiency(w: World): real {
    Efficiency(TotalLoad(w.trucks), TotalFill(w.bins))
  }
}
