/** The agents as objects: the truck agent, whose methods update its
    position, load and table in place and empty the container it stands at,
    and the environment holding the ordered container and truck lists.
    Each method is proved to leave the state the value-level functions of
    `Policy`, `QLearning` and `World` describe. */
module Simulation {
  import opened Grid
  import opened Containers
  import opened Lookup
  import opened QLearning
  import opened Policy
  import opened World

  /** The observable states of a list of container agents. */
  function BinsOf(cs: seq<TrashContainer>): (r: seq<Bin>)
    reads cs
    ensures |r| == |cs|
    ensures forall i :: 0 <= i < |cs| ==> r[i] == cs[i].View()
  {
    seq(|cs|, i reads cs requires 0 <= i < |cs| => cs[i].View())
  }

  /** The observable states of a list of truck agents. */
  function TrucksOf(ts: seq<TrashTruck>): (r: seq<Truck>)
    reads ts
    ensures |r| == |ts|
    ensures forall i :: 0 <= i < |ts| ==> r[i] == ts[i].View()
  {
    seq(|ts|, i reads ts requires 0 <= i < |ts| => ts[i].View())
  }

  class TrashTruck {
    const id: nat
    const capacity: int
    const epsilon: real
    const alpha: real
    const gamma: real
    var position: Pos
    var load: int
    var qTable: QTable

    function View(): Truck
      reads this
    {
      Truck(position, load, capacity, qTable, epsilon, alpha, gamma)
    }

    /** `setup` followed by the environment placing the truck at `start`;
        `saved` is what `load_q_table` read, if anything. */
    constructor (id: nat, start: Pos, capacity: int, epsilon: real, alpha: real, gamma: real,
                 saved: Option<SavedTable>)
      ensures this.id == id
      ensures View() == Truck(start, 0, capacity, LoadedTable(saved), LoadedEpsilon(epsilon, saved), alpha, gamma)
    {
      this.id := id;
      this.capacity := capacity;
      this.epsilon := LoadedEpsilon(epsilon, saved);
      this.alpha := alpha;
      this.gamma := gamma;
      position := start;
      load := 0;
      qTable := LoadedTable(saved);
    }

    /** `move_to_dump`: one axis move toward the first nearest corner, or
        unload and answer `Collect` on a corner. */
    method MoveToDump() returns (action: Action)
      modifies this`load
      ensures var c := Policy.MoveToDump(old(position), old(load));
              action == c.action && load == c.load
    {
      var target := DumpPoints[FirstNearest(DumpPoints, position)];
      if position.x < target.x {
        action := Right;
      } else if position.x > target.x {
        action := Left;
      } else if position.y < target.y {
        action := Up;
      } else if position.y > target.y {
        action := Down;
      } else {
        load := 0;
        action := Collect;
      }
    }

    /** `choose_action`, with the exploration coin and the random action as
        inputs. */
    method ChooseAction(env: GarbageEnvironment, coin: real, pick: Action) returns (action: Action)
      modifies this`load
      ensures var c := Policy.ChooseAction(old(View()), env.Bins(), coin, pick);
              action == c.action && load == c.load
    {
      var here := env.GetContainerAtPosition(position);
      if here != null && here.currentFill > 0 && load < capacity {
        return Collect;
      }
      if 5 * load >= 4 * capacity {
        action := MoveToDump();
        return;
      }
      var critical := CriticalPositions(env.Bins());
      if critical != [] {
        return MoveToCritical(position, critical);
      }
      if coin < epsilon {
        return pick;
      }
      action := Greedy(RowOf(qTable, StateOf(View())), pick);
    }

    /** `execute`: move, add the shaping term, collect, reroute, then the
        full and overflow penalties; returns the reward and the new state. */
    method Execute(action: Action, env: GarbageEnvironment) returns (reward: int, next: State)
      requires env.ContainersDistinct()
      modifies this`position, this`load, env.containers
      ensures reward == Policy.Execute(old(View()), action, old(env.Bins())).reward
      ensures position == Policy.Execute(old(View()), action, old(env.Bins())).pos
      ensures load == Policy.Execute(old(View()), action, old(env.Bins())).load
      ensures env.Bins() == Policy.Execute(old(View()), action, old(env.Bins())).bins
      ensures next == StateOf(View())
    {
      ExecuteInParts(View(), action, env.Bins());
      var nextPos, shaping := Moving(action, env);
      var gain := Collecting(action, env);
      var routed, bonus := Rerouting(action, nextPos, env);
      var penalty := Penalties(env);
      reward := shaping + gain + bonus + penalty;
      position := routed;
      next := StateOf(View());
    }

    /** The movement part of `execute` and its shaping term, computed on the
        containers before any collection. */
    method Moving(action: Action, env: GarbageEnvironment) returns (nextPos: Pos, shaping: int)
      ensures nextPos == Moved(position, action)
      ensures shaping == ShapingBonus(position, nextPos, CriticalPositions(env.Bins()))
    {
      var x, y := position.x, position.y;
      nextPos := position;
      if action == Up && y < MaxCoord {
        nextPos := Pos(x, y + 1);
      } else if action == Down && y > 0 {
        nextPos := Pos(x, y - 1);
      } else if action == Left && x > 0 {
        nextPos := Pos(x - 1, y);
      } else if action == Right && x < MaxCoord {
        nextPos := Pos(x + 1, y);
      }
      shaping := 0;
      var critical := CriticalPositions(env.Bins());
      if critical != [] {
        var before := MinDist(critical, position);
        var after := MinDist(critical, nextPos);
        if after < before {
          shaping := 2;
        }
      }
    }

    /** The `change_route` part of `execute`: one step toward the first
        nearest critical container and +10, or -2 when there is none. */
    method Rerouting(action: Action, nextPos: Pos, env: GarbageEnvironment) returns (routed: Pos, bonus: int)
      ensures var critical := CriticalPositions(env.Bins());
              (action != ChangeRoute ==> routed == nextPos && bonus == 0) &&
              (action == ChangeRoute && critical == [] ==> routed == nextPos && bonus == -2) &&
              (action == ChangeRoute && critical != [] ==>
                 routed == RouteStep(position, critical[FirstNearest(critical, position)]) && bonus == 10)
    {
      routed, bonus := nextPos, 0;
      if action == ChangeRoute {
        var critical := CriticalPositions(env.Bins());
        if critical != [] {
          var target := critical[FirstNearest(critical, position)];
          var x, y := position.x, position.y;
          if x < target.x && x < MaxCoord {
            routed := Pos(x + 1, y);
          } else if x > target.x && x > 0 {
            routed := Pos(x - 1, y);
          } else if y < target.y && y < MaxCoord {
            routed := Pos(x, y + 1);
          } else if y > target.y && y > 0 {
            routed := Pos(x, y - 1);
          } else {
            routed := position;
          }
          bonus := 10;
        } else {
          bonus := -2;
        }
      }
    }

    /** The full and overflow penalties, on the state after the action. */
    method Penalties(env: GarbageEnvironment) returns (penalty: int)
      ensures penalty == FullPenalty(load, capacity) - 30 * |OverflowingPositions(env.Bins())|
    {
      penalty := 0;
      if load >= capacity {
        penalty := penalty - 20;
      }
      penalty := penalty - 30 * |OverflowingPositions(env.Bins())|;
    }

    /** The `collect` part of `execute`; other actions leave load and
        containers alone. */
    method Collecting(action: Action, env: GarbageEnvironment) returns (gain: int)
      requires env.ContainersDistinct()
      modifies this`load, env.containers
      ensures var c := if action == Collect then CollectHere(old(View()), old(env.Bins()))
                       else Collection(0, old(load), old(env.Bins()));
              gain == c.reward && load == c.load && env.Bins() == c.bins
    {
      gain := 0;
      if action == Collect {
        gain := CollectAt(env);
      }
    }

    /** The `collect` branch of `execute`, with its share of the reward. */
    method CollectAt(env: GarbageEnvironment) returns (gain: int)
      requires env.ContainersDistinct()
      modifies this`load, env.containers
      ensures var c := CollectHere(old(View()), old(env.Bins()));
              gain == c.reward && load == c.load && env.Bins() == c.bins
    {
      ghost var c := CollectHere(View(), env.Bins());
      var here := env.GetContainerAtPosition(position);
      if here != null && load < capacity && here.currentFill > 0 {
        ghost var k := FirstAt(env.Bins(), position).value;
        assert CanCollectHere(View(), env.Bins());
        var amount := Min(Min(here.currentFill, capacity - load), 10);
        var collected := TakeFrom(env, k, here, amount);
        assert env.Bins() == c.bins;
        gain := 30 * collected;
        if Critical(here.View()) {
          gain := gain + 100 * collected;
        }
        load := load + collected;
      } else {
        gain := -2;
      }
    }

    /** `collect_trash` on the container found here, seen through the list. */
    method TakeFrom(env: GarbageEnvironment, ghost k: nat, here: TrashContainer, amount: int) returns (collected: int)
      requires env.ContainersDistinct() && k < |env.containers| && here == env.containers[k]
      modifies here
      ensures var b := old(env.Bins())[k];
              collected == Taken(b.fill, amount) && here.View() == b.(fill := b.fill - collected) &&
              env.Bins() == old(env.Bins())[k := here.View()]
    {
      collected := here.CollectTrash(amount);
      assert forall j :: 0 <= j < |env.containers| && j != k ==> env.containers[j] != here;
    }

    /** `update_q`. */
    method UpdateQ(s: State, a: Action, reward: real, next: State)
      requires RowsComplete(qTable)
      modifies this`qTable
      ensures qTable == Update(old(qTable), s, a, reward, next, alpha, gamma)
    {
      UpdateInStages(qTable, s, a, reward, next, alpha, gamma);
      EnsureRows(s, next);
      var oldValue := qTable[s][a];
      var nextMax := RowMax(qTable[next]);
      var newValue := Blend(oldValue, reward, nextMax, alpha, gamma);
      qTable := qTable[s := qTable[s][a := newValue]];
    }

    /** The lazy initialisation at the head of `update_q`. */
    method EnsureRows(s: State, next: State)
      requires RowsComplete(qTable)
      modifies this`qTable
      ensures qTable == EnsuredBoth(old(qTable), s, next)
    {
      if s !in qTable {
        qTable := qTable[s := ZeroRow()];
      }
      if next !in qTable {
        qTable := qTable[next := ZeroRow()];
      }
    }

    /** `step`: observe, choose, execute, learn. */
    method Step(env: GarbageEnvironment, d: Draw)
      requires env.ContainersDistinct() && RowsComplete(qTable)
      modifies this, env.containers
      ensures var r := TruckStep(old(View()), old(env.Bins()), d);
              View() == r.truck && env.Bins() == r.bins
    {
      var s := StateOf(View());
      var action := ChooseAction(env, d.coin, d.pick);
      var reward, next := Execute(action, env);
      UpdateQ(s, action, reward as real, next);
    }
  }

  class GarbageEnvironment {
    const containers: seq<TrashContainer>
    const trucks: seq<TrashTruck>
    const density: real
    const initialTrash: int

    function Bins(): seq<Bin>
      reads containers
    {
      BinsOf(containers)
    }

    function Trucks(): seq<Truck>
      reads trucks
    {
      TrucksOf(trucks)
    }

    function View(): World
      reads containers, trucks
    {
      World(Bins(), Trucks())
    }

    predicate ContainersDistinct() {
      forall i, j :: 0 <= i < j < |containers| ==> containers[i] != containers[j]
    }

    predicate TrucksDistinct() {
      forall i, j :: 0 <= i < j < |trucks| ==> trucks[i] != trucks[j]
    }

    /** Distinct agents, and what every step keeps. */
    predicate Valid()
      reads containers, trucks
    {
      ContainersDistinct() && TrucksDistinct() && WorldOk(View()) && AllRowsComplete(Trucks())
    }

    /** `setup`: the fixed container positions with the drawn initial
        fills, and three trucks at the start corners. */
    constructor (capacity: int, containerLimit: int, epsilon: real, alpha: real, gamma: real,
                 density: real, saved: Option<SavedTable>, fills: seq<int>)
      requires |fills| == |ContainerPositions|
      requires forall i :: 0 <= i < |fills| ==> 5 <= fills[i] <= 20
      requires capacity >= 0 && containerLimit >= 0 && SavedOk(saved)
      ensures Valid()
      ensures View() == Initial(capacity, containerLimit, epsilon, alpha, gamma, saved, fills)
      ensures this.density == density
      ensures initialTrash == TotalFill(Bins())
      ensures forall i :: 0 <= i < |trucks| ==> trucks[i].id == i
    {
      var cs: seq<TrashContainer> := [];
      for i := 0 to |ContainerPositions|
        invariant |cs| == i
        invariant forall j :: 0 <= j < i ==> cs[j].View() == Bin(ContainerPositions[j], containerLimit, fills[j])
        invariant forall j, k :: 0 <= j < k < i ==> cs[j] != cs[k]
      {
        var c := new TrashContainer(ContainerPositions[i], containerLimit, fills[i]);
        cs := cs + [c];
      }
      var ts: seq<TrashTruck> := [];
      for i := 0 to |StartPositions|
        invariant |ts| == i
        invariant forall j :: 0 <= j < i ==>
                    ts[j].id == j &&
                    ts[j].View() == Truck(StartPositions[j], 0, capacity, LoadedTable(saved),
                                          LoadedEpsilon(epsilon, saved), alpha, gamma)
        invariant forall j, k :: 0 <= j < k < i ==> ts[j] != ts[k]
        invariant forall j :: 0 <= j < |cs| ==> cs[j].View() == Bin(ContainerPositions[j], containerLimit, fills[j])
      {
        var t := new TrashTruck(i, StartPositions[i], capacity, epsilon, alpha, gamma, saved);
        ts := ts + [t];
      }
      containers := cs;
      trucks := ts;
      this.density := density;
      initialTrash := TotalFill(BinsOf(cs));
      new;
      ghost var w := Initial(capacity, containerLimit, epsilon, alpha, gamma, saved, fills);
      assert forall j :: 0 <= j < 5 ==> Bins()[j] == w.bins[j];
      assert Bins() == w.bins;
      assert forall j :: 0 <= j < 3 ==> Trucks()[j] == w.trucks[j];
      assert Trucks() == w.trucks;
      OkIsComplete(w.trucks);
    }

    /** `get_container_at_position`: the first container standing at `p`. */
    method GetContainerAtPosition(p: Pos) returns (c: TrashContainer?)
      ensures c == null <==> FirstAt(Bins(), p).None?
      ensures c != null ==> c == containers[FirstAt(Bins(), p).value]
    {
      for i := 0 to |containers|
        invariant forall j :: 0 <= j < i ==> Bins()[j].pos != p
      {
        if containers[i].position == p {
          return containers[i];
        }
      }
      return null;
    }

    /** `step`: every container generates, then every truck acts, both in
        list order. */
    method Step(binDraws: seq<BinDraw>, truckDraws: seq<Draw>)
      requires Valid()
      requires |binDraws| == |containers| && DrawsFit(density, binDraws)
      requires |truckDraws| == |trucks|
      modifies containers, trucks
      ensures Valid()
      ensures View() == EnvStep(old(View()), density, binDraws, truckDraws)
    {
      ghost var w := View();
      EnvStepKeeps(w, density, binDraws, truckDraws);
      ghost var r := EnvStep(w, density, binDraws, truckDraws);
      StepContainers(binDraws);
      StepTrucks(truckDraws);
      assert View() == r;
      OkIsComplete(r.trucks);
    }

    /** `self.containers.step()`. */
    method StepContainers(binDraws: seq<BinDraw>)
      requires |binDraws| == |containers| && DrawsFit(density, binDraws)
      requires ContainersDistinct()
      modifies containers
      ensures Bins() == StepBins(old(Bins()), density, binDraws)
    {
      ghost var bins := Bins();
      for i := 0 to |containers|
        invariant forall j :: 0 <= j < i ==>
                    containers[j].currentFill
                      == GeneratedFill(bins[j].fill, bins[j].capacity, binDraws[j].coin, density, binDraws[j].amount)
        invariant forall j :: i <= j < |containers| ==> containers[j].currentFill == bins[j].fill
      {
        containers[i].Step(binDraws[i].coin, density, binDraws[i].amount);
      }
      assert forall j :: 0 <= j < |containers| ==> Bins()[j] == StepBins(bins, density, binDraws)[j];
    }

    /** `self.trucks.step()`. */
    method StepTrucks(truckDraws: seq<Draw>)
      requires |truckDraws| == |trucks|
      requires ContainersDistinct() && TrucksDistinct() && AllRowsComplete(Trucks())
      modifies containers, trucks
      ensures View() == RunTrucks(old(Bins()), old(Trucks()), truckDraws, |trucks|)
    {
      ghost var done := TruckLoop(truckDraws);
      assert forall j :: 0 <= j < |trucks| ==> Trucks()[j] == done.trucks[j];
    }

    /** The trucks before `i` have stepped into `done`; those from `i` on
        still look as in `ts`. */
    ghost predicate SteppedUpTo(i: nat, ts: seq<Truck>, done: World)
      reads containers, trucks
    {
      i <= |trucks| == |ts| && Bins() == done.bins && |done.trucks| == i &&
      (forall j :: 0 <= j < i ==> trucks[j].View() == done.trucks[j]) &&
      (forall j :: i <= j < |trucks| ==> trucks[j].View() == ts[j])
    }

    /** The loop of `self.trucks.step()`, with the pass as a ghost result. */
    method TruckLoop(truckDraws: seq<Draw>) returns (ghost done: World)
      requires |truckDraws| == |trucks|
      requires ContainersDistinct() && TrucksDistinct() && AllRowsComplete(Trucks())
      modifies containers, trucks
      ensures done == RunTrucks(old(Bins()), old(Trucks()), truckDraws, |trucks|)
      ensures Bins() == done.bins && |done.trucks| == |trucks|
      ensures forall j :: 0 <= j < |trucks| ==> trucks[j].View() == done.trucks[j]
    {
      ghost var bins := Bins();
      ghost var ts := Trucks();
      done := World(bins, []);
      for i := 0 to |trucks|
        invariant done == RunTrucks(bins, ts, truckDraws, i)
        invariant SteppedUpTo(i, ts, done)
      {
        done := StepTruckAt(i, truckDraws, ts, done);
      }
    }

    /** Truck `i` steps, after the trucks before it have stepped into `done`. */
    method StepTruckAt(i: nat, truckDraws: seq<Draw>, ghost ts: seq<Truck>, ghost done: World) returns (ghost done': World)
      requires i < |trucks| == |truckDraws| == |ts|
      requires ContainersDistinct() && TrucksDistinct() && RowsComplete(ts[i].q)
      requires SteppedUpTo(i, ts, done)
      modifies containers, trucks[i]
      ensures var r := TruckStep(ts[i], done.bins, truckDraws[i]);
              done' == World(r.bins, done.trucks + [r.truck])
      ensures SteppedUpTo(i + 1, ts, done')
    {
      ghost var r := TruckStep(ts[i], done.bins, truckDraws[i]);
      assert forall j :: 0 <= j < |trucks| && j != i ==> trucks[j] != trucks[i];
      trucks[i].Step(this, truckDraws[i]);
      assert forall j :: 0 <= j < |trucks| && j != i ==> trucks[j].View() == old(trucks[j].View());
      done' := World(r.bins, done.trucks + [r.truck]);
    }
  }
}
