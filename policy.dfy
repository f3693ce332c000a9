/** The truck's decision core as values: the priority chain that picks an
    action, the two steering rules, the execution of an action with its
    shaped reward, and one full decide-execute-learn step. */
module Policy {
  import opened Grid
  import opened Containers
  import opened Lookup
  import opened QLearning

  /** The four corners where a truck unloads, in the order they are tried. */
  const DumpPoints: seq<Pos> := [Pos(0, 0), Pos(7, 0), Pos(0, 7), Pos(7, 7)]

  /** The state of one truck agent. */
  datatype Truck = Truck(pos: Pos, load: int, capacity: int, q: QTable,
                         epsilon: real, alpha: real, gamma: real)

  /** `state()`: the key of the truck's Q-table. */
  function StateOf(t: Truck): State {
    State(t.pos, t.load)
  }

  /** What a step keeps: on the board, load within [0, capacity], every
      learned row complete. */
  predicate TruckOk(t: Truck) {
    InGrid(t.pos) && 0 <= t.load <= t.capacity && RowsComplete(t.q)
  }

  /** Every container on the board, with non-negative capacity and fill. */
  predicate BinsOk(bins: seq<Bin>) {
    forall i :: 0 <= i < |bins| ==> InGrid(bins[i].pos) && bins[i].capacity >= 0 && bins[i].fill >= 0
  }

  /** Rule 1 of the chain: a non-empty container here and room in the truck. */
  predicate CanCollectHere(t: Truck, bins: seq<Bin>) {
    var i := FirstAt(bins, t.pos);
    i.Some? && bins[i.value].fill > 0 && t.load < t.capacity
  }

  /** Rule 2 of the chain: load at or above 80% of capacity. */
  predicate WantsDump(t: Truck) {
    5 * t.load >= 4 * t.capacity
  }

  /** The integer test is the source's `load >= capacity * 0.8` read in
      exact arithmetic. */
  lemma WantsDumpIsEightyPercent(t: Truck)
    ensures WantsDump(t) <==> t.load as real >= t.capacity as real * 0.8
  {
  }

  /** Rule 4 of the chain is reached: rules 1 to 3 did not fire. */
  predicate Learns(t: Truck, bins: seq<Bin>) {
    !CanCollectHere(t, bins) && !WantsDump(t) && CriticalPositions(bins) == []
  }

  /** A decided action and the load after deciding (`move_to_dump` unloads). */
  datatype Choice = Choice(action: Action, load: int)

  /** `move_to_dump`: head for the first nearest corner; on a corner, unload
      and answer `Collect`. */
  function MoveToDump(pos: Pos, load: int): (c: Choice)
    ensures c.action == Collect <==> pos in DumpPoints
    ensures c.load == if pos in DumpPoints then 0 else load
    ensures c.action != ChangeRoute
    ensures c.action == Toward(pos, DumpPoints[FirstNearest(DumpPoints, pos)])
    ensures var target := DumpPoints[FirstNearest(DumpPoints, pos)];
            InGrid(pos) && pos !in DumpPoints ==> Dist(Moved(pos, c.action), target) + 1 == Dist(pos, target)
  {
    var target := DumpPoints[FirstNearest(DumpPoints, pos)];
    NearestIsSelf(DumpPoints, pos);
    var a := Toward(pos, target);
    Choice(a, if a == Collect then 0 else load)
  }

  /** `move_to_critical`: head for the first nearest critical position;
      `Collect` when standing on one. */
  function MoveToCritical(pos: Pos, critical: seq<Pos>): (a: Action)
    requires |critical| > 0
    ensures a == Collect <==> pos in critical
    ensures a != ChangeRoute
    ensures a == Toward(pos, critical[FirstNearest(critical, pos)])
    ensures var target := critical[FirstNearest(critical, pos)];
            InGrid(pos) && InGrid(target) && pos !in critical ==> Dist(Moved(pos, a), target) + 1 == Dist(pos, target)
  {
    NearestIsSelf(critical, pos);
    Toward(pos, critical[FirstNearest(critical, pos)])
  }

  /** `choose_action`, with the exploration coin and the random action as
      inputs: collect here, else dump at 80%, else steer to a critical
      container, else explore or exploit the learned row. */
  function ChooseAction(t: Truck, bins: seq<Bin>, coin: real, pick: Action): (c: Choice)
    ensures CanCollectHere(t, bins) ==> c == Choice(Collect, t.load)
    ensures c.load != t.load ==> c.load == 0 && c.action == Collect && WantsDump(t) && t.pos in DumpPoints
    ensures !CanCollectHere(t, bins) && WantsDump(t) ==> c == MoveToDump(t.pos, t.load)
    ensures !CanCollectHere(t, bins) && !WantsDump(t) && CriticalPositions(bins) != [] ==>
              c.load == t.load && c.action == MoveToCritical(t.pos, CriticalPositions(bins))
    ensures Learns(t, bins) ==> c.load == t.load
    ensures Learns(t, bins) && coin < t.epsilon ==> c.action == pick
    ensures Learns(t, bins) && coin >= t.epsilon ==> c.action == Greedy(RowOf(t.q, StateOf(t)), pick)
    ensures c.action == ChangeRoute ==> Learns(t, bins)
  {
    if CanCollectHere(t, bins) then Choice(Collect, t.load)
    else if WantsDump(t) then MoveToDump(t.pos, t.load)
    else
      var critical := CriticalPositions(bins);
      if critical != [] then Choice(MoveToCritical(t.pos, critical), t.load)
      else if coin < t.epsilon then Choice(pick, t.load)
      else Choice(Greedy(RowOf(t.q, StateOf(t)), pick), t.load)
  }

  /** Rules 1 to 3 use neither the coin, the random action, the rates nor the
      learned table. */
  lemma ForcedRulesIgnoreLearning(t: Truck, bins: seq<Bin>, coin: real, pick: Action,
                                  u: Truck, coin': real, pick': Action)
    requires !Learns(t, bins)
    requires u.pos == t.pos && u.load == t.load && u.capacity == t.capacity
    ensures ChooseAction(t, bins, coin, pick) == ChooseAction(u, bins, coin', pick')
  {
  }

  function Min(a: int, b: int): int {
    if a <= b then a else b
  }

  /** +2 when the move brought the truck strictly closer to the nearest
      critical container. */
  function ShapingBonus(from: Pos, to: Pos, critical: seq<Pos>): (r: int)
    ensures r == 0 || r == 2
    ensures from == to || critical == [] ==> r == 0
  {
    if critical != [] && MinDist(critical, to) < MinDist(critical, from) then 2 else 0
  }

  /** The +2 is earned exactly when some critical position is nearer to
      the new position than every critical position is to the old one,
      that is, when the nearest distance strictly drops. */
  lemma ShapingBonusWhenCloser(from: Pos, to: Pos, critical: seq<Pos>)
    ensures ShapingBonus(from, to, critical) == 2 <==>
              critical != [] &&
              exists j :: 0 <= j < |critical| &&
                forall k :: 0 <= k < |critical| ==> Dist(to, critical[j]) < Dist(from, critical[k])
  {
    if critical != [] {
      var dTo, dFrom := MinDist(critical, to), MinDist(critical, from);
      var j :| 0 <= j < |critical| && dTo == Dist(to, critical[j]);
      var k :| 0 <= k < |critical| && dFrom == Dist(from, critical[k]);
      if dTo < dFrom {
        assert forall k :: 0 <= k < |critical| ==> Dist(to, critical[j]) < Dist(from, critical[k]);
      } else {
        forall j' | 0 <= j' < |critical|
          ensures Dist(from, critical[k]) <= Dist(to, critical[j'])
        {
        }
      }
    }
  }

  /** The effect of a `collect` action on reward, load and containers. */
  datatype Collection = Collection(reward: int, load: int, bins: seq<Bin>)

  /** The `collect` branch of `execute`: take min(fill, room, 10) from the
      first container here; +30 per unit, +100 per unit more when the
      container is still critical after the removal; -2 when nothing could
      be taken. */
  function CollectHere(t: Truck, bins: seq<Bin>): (c: Collection)
    ensures !CanCollectHere(t, bins) ==> c == Collection(-2, t.load, bins)
    ensures CanCollectHere(t, bins) ==>
              var i := FirstAt(bins, t.pos).value;
              var got := Min(Min(bins[i].fill, t.capacity - t.load), 10);
              var b := bins[i].(fill := bins[i].fill - got);
              0 < got <= 10 && c.load == t.load + got && c.bins == bins[i := b] &&
              c.reward == 30 * got + (if Critical(b) then 100 * got else 0)
    ensures 0 <= t.load <= t.capacity ==> 0 <= c.load <= t.capacity
  {
    match FirstAt(bins, t.pos)
    case None => Collection(-2, t.load, bins)
    case Some(i) =>
      if t.load < t.capacity then
        if bins[i].fill > 0 then
          var amount := Min(Min(bins[i].fill, t.capacity - t.load), 10);
          var got := Taken(bins[i].fill, amount);
          var b := bins[i].(fill := bins[i].fill - got);
          Collection(30 * got + (if Critical(b) then 100 * got else 0), t.load + got, bins[i := b])
        else Collection(-2, t.load, bins)
      else Collection(-2, t.load, bins)
  }

  /** Result of `execute`: the reward, and the new position, load and containers. */
  datatype Outcome = Outcome(reward: int, pos: Pos, load: int, bins: seq<Bin>)

  predicate IsMove(a: Action) {
    a == Up || a == Down || a == Left || a == Right
  }

  /** -20 when the truck is full after the action. */
  function FullPenalty(load: int, capacity: int): int {
    if load >= capacity then -20 else 0
  }

  /** `execute`. The shaping test sees only the movement actions' position
      (the `change_route` step comes after it); the full penalty and the
      overflow penalty look at the state after the action. */
  function Execute(t: Truck, action: Action, bins: seq<Bin>): (o: Outcome)
    ensures InGrid(t.pos) ==> InGrid(o.pos)
    ensures 0 <= t.load <= t.capacity ==> 0 <= o.load <= t.capacity
    ensures IsMove(action) ==> o.pos == Moved(t.pos, action) && o.load == t.load && o.bins == bins
    ensures action == Collect ==> o.pos == t.pos && o.load == CollectHere(t, bins).load && o.bins == CollectHere(t, bins).bins
    ensures action == ChangeRoute ==> o.load == t.load && o.bins == bins
    ensures action == ChangeRoute && CriticalPositions(bins) == [] ==> o.pos == t.pos
    ensures action == ChangeRoute && CriticalPositions(bins) != [] ==>
              o.pos == RouteStep(t.pos, CriticalPositions(bins)[FirstNearest(CriticalPositions(bins), t.pos)])
    ensures IsMove(action) ==>
              o.reward == ShapingBonus(t.pos, o.pos, CriticalPositions(bins)) + FullPenalty(t.load, t.capacity)
                          - 30 * |OverflowingPositions(bins)|
    ensures action == Collect ==>
              o.reward == CollectHere(t, bins).reward + FullPenalty(o.load, t.capacity)
                          - 30 * |OverflowingPositions(o.bins)|
    ensures action == ChangeRoute ==>
              o.reward == (if CriticalPositions(bins) != [] then 10 else -2) + FullPenalty(t.load, t.capacity)
                          - 30 * |OverflowingPositions(bins)|
  {
    var next := Moved(t.pos, action);
    var shaping := ShapingBonus(t.pos, next, CriticalPositions(bins));
    var col := if action == Collect then CollectHere(t, bins) else Collection(0, t.load, bins);
    var critical := CriticalPositions(col.bins);
    var route := if action != ChangeRoute then 0 else if critical != [] then 10 else -2;
    var pos := if action == ChangeRoute && critical != [] then RouteStep(t.pos, critical[FirstNearest(critical, t.pos)]) else next;
    Outcome(shaping + col.reward + route + FullPenalty(col.load, t.capacity) - 30 * |OverflowingPositions(col.bins)|,
            pos, col.load, col.bins)
  }

  /** `execute` as its sequence of contributions: the shaping term, the
      collection, the reroute, the full and the overflow penalties. This
      spells out the definition of `Execute` for the proof of the truck
      object's `Execute`, which computes it contribution by contribution. */
  lemma ExecuteInParts(t: Truck, action: Action, bins: seq<Bin>)
    ensures var col := if action == Collect then CollectHere(t, bins) else Collection(0, t.load, bins);
            var critical := CriticalPositions(col.bins);
            var o := Execute(t, action, bins);
            o.reward == ShapingBonus(t.pos, Moved(t.pos, action), CriticalPositions(bins)) + col.reward
                        + (if action != ChangeRoute then 0 else if critical != [] then 10 else -2)
                        + FullPenalty(col.load, t.capacity) - 30 * |OverflowingPositions(col.bins)| &&
            o.pos == (if action == ChangeRoute && critical != [] then RouteStep(t.pos, critical[FirstNearest(critical, t.pos)])
                      else Moved(t.pos, action)) &&
            o.load == col.load && o.bins == col.bins
  {
  }

  /** Collecting only lowers the fill of the container it empties from, by
      the amount the truck gains; positions and capacities stay. */
  lemma {:induction false} CollectMovesTrash(t: Truck, bins: seq<Bin>)
    ensures var c := CollectHere(t, bins);
            |c.bins| == |bins| &&
            (forall i :: 0 <= i < |bins| ==> c.bins[i].pos == bins[i].pos && c.bins[i].capacity == bins[i].capacity) &&
            (forall i :: 0 <= i < |bins| ==> c.bins[i].fill <= bins[i].fill) &&
            (forall i :: 0 <= i < |bins| && c.bins[i].fill != bins[i].fill ==>
               FirstAt(bins, t.pos) == Some(i) && bins[i].fill - c.bins[i].fill == c.load - t.load)
  {
  }

  /** Whatever the action, the containers lose exactly what the truck gains. */
  lemma ExecuteMovesTrash(t: Truck, action: Action, bins: seq<Bin>)
    ensures TotalFill(bins) - TotalFill(Execute(t, action, bins).bins) == Execute(t, action, bins).load - t.load
  {
    if action == Collect {
      CollectHereMovesTrash(t, bins);
    }
  }

  lemma CollectHereMovesTrash(t: Truck, bins: seq<Bin>)
    ensures TotalFill(bins) - TotalFill(CollectHere(t, bins).bins) == CollectHere(t, bins).load - t.load
  {
    if CanCollectHere(t, bins) {
      var i := FirstAt(bins, t.pos).value;
      var got := Min(Min(bins[i].fill, t.capacity - t.load), 10);
      TotalFillUpdate(bins, i, bins[i].(fill := bins[i].fill - got));
    }
  }

  /** A `collect` that leaves the container below 90% earns no critical
      bonus, even when the container was critical before: 27 of 30 units
      collected into an empty truck of capacity 35 earns 300, not 1300. */
  lemma CriticalBonusTestsFillAfterCollection()
    ensures var t := Truck(Pos(1, 1), 0, 35, map[], 0.3, 0.15, 0.9);
            var bins := [Bin(Pos(1, 1), 30, 27)];
            Critical(bins[0]) && Execute(t, Collect, bins).reward == 300
  {
    var t := Truck(Pos(1, 1), 0, 35, map[], 0.3, 0.15, 0.9);
    var bins := [Bin(Pos(1, 1), 30, 27)];
    assert FirstAt(bins, t.pos) == Some(0);
    var b := bins[0].(fill := 17);
    assert CollectHere(t, bins) == Collection(300, 10, [b]);
    assert OverflowingPositions([b]) == [];
  }

  /** A move toward a critical container and a reroute toward it: only the
      move earns the +2 shaping term. */
  lemma ChangeRouteEarnsNoShaping()
    ensures var t := Truck(Pos(0, 0), 0, 35, map[], 0.3, 0.15, 0.9);
            var bins := [Bin(Pos(3, 0), 30, 28)];
            Execute(t, Right, bins).reward == 2 && Execute(t, ChangeRoute, bins).reward == 10 &&
            Execute(t, Right, bins).pos == Execute(t, ChangeRoute, bins).pos
  {
    var bins := [Bin(Pos(3, 0), 30, 28)];
    assert CriticalPositions(bins) == [Pos(3, 0)];
    assert OverflowingPositions(bins) == [];
  }

  /** One `step` of a truck: observe the state, choose, execute, learn. */
  datatype StepResult = StepResult(truck: Truck, bins: seq<Bin>)

  /** The random draws one truck step consumes: the exploration coin and the
      random action. */
  datatype Draw = Draw(coin: real, pick: Action)

  function TruckStep(t: Truck, bins: seq<Bin>, d: Draw): (r: StepResult)
    requires RowsComplete(t.q)
    ensures TruckOk(t) ==> TruckOk(r.truck)
    ensures r.truck.capacity == t.capacity && r.truck.epsilon == t.epsilon
    ensures r.truck.alpha == t.alpha && r.truck.gamma == t.gamma
    ensures StateOf(t) in r.truck.q && StateOf(r.truck) in r.truck.q
    ensures RowsComplete(r.truck.q)
    ensures |r.bins| == |bins|
  {
    var s := StateOf(t);
    var c := ChooseAction(t, bins, d.coin, d.pick);
    var o := Execute(t.(load := c.load), c.action, bins);
    var next := State(o.pos, o.load);
    var q := Update(t.q, s, c.action, o.reward as real, next, t.alpha, t.gamma);
    StepResult(t.(pos := o.pos, load := o.load, q := q), o.bins)
  }

  /** What a step does: the truck ends where `Execute` leaves it, with its
      load, and the containers become `Execute`'s containers. What it
      learns: only the entry of the action chosen, in the row
      of the state read before deciding (a dump on a corner has already
      zeroed the load by then), is rewritten, with the blend of the reward
      and the best value of the state reached; every other row the truck
      knew is kept, and rows new to it are zero rows. */
  lemma TruckStepLearns(t: Truck, bins: seq<Bin>, d: Draw)
    requires RowsComplete(t.q)
    ensures var r, s := TruckStep(t, bins, d), StateOf(t);
            var c := ChooseAction(t, bins, d.coin, d.pick);
            var o := Execute(t.(load := c.load), c.action, bins);
            var next := State(o.pos, o.load);
            r.truck.pos == o.pos && r.truck.load == o.load && r.bins == o.bins &&
            r.truck.q.Keys == t.q.Keys + {s, next} &&
            (forall u :: u in r.truck.q && u != s ==> r.truck.q[u] == if u in t.q then t.q[u] else ZeroRow()) &&
            (forall b: Action :: b != c.action ==> r.truck.q[s][b] == if s in t.q then t.q[s][b] else 0.0) &&
            r.truck.q[s][c.action] ==
              Blend(if s in t.q then t.q[s][c.action] else 0.0, o.reward as real,
                    if next in t.q then RowMax(t.q[next]) else 0.0, t.alpha, t.gamma)
  {
  }
}
