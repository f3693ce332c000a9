# Waste-collection simulation: a Dafny model

The modelled system is an agent-based simulation of urban waste collection
on an 8×8 grid.

- **Containers.** Five containers sit at fixed positions. Each step, every
  container may generate trash, clamped at twice its capacity.
- **Trucks.** Three trucks start at fixed corners. Every step each truck
  decides an action through a fixed priority chain:
  1. collect at a non-empty container on its cell;
  2. head for the nearest dump corner when 80% full, unloading there;
  3. head for the nearest critical container;
  4. otherwise pick an action epsilon-greedily from a Q-table.
- **Executing an action.** The truck executes the action with a shaped
  reward:
  - +2 for approaching a critical container;
  - +30 per unit collected, and +100 more per unit when the container is
    still critical after the removal;
  - +10 or −2 for rerouting;
  - −20 when full, and −30 per overflowing container.
- **Learning.** The truck then applies the one-step Q-learning update.
- **Reporting.** A web server reports each step as status classes of trucks
  and containers, plus an efficiency and a critical count.

The model has two layers.

- **Value layer** (`Grid`, `Containers`, `Lookup`, `QLearning`, `Policy`,
  `World`, `Snapshot`): positions, actions, containers, trucks, the Q-table
  (a `map` from `(position, load)` states to a `map` from action to `real`),
  and one environment step as datatypes and functions, with lemmas about them.
- **Object layer** (`Containers.TrashContainer`, `Simulation.TrashTruck`,
  `Simulation.GarbageEnvironment`): the agents as classes whose methods update
  their fields in place, as the Python agents do. Every method is proved to
  leave exactly the state the value layer computes, so the value-layer lemmas
  apply to the objects.

Decisions the model makes about the source:

- **Percent thresholds.** They are compared exactly by cross-multiplying.
  - critical: `10·fill ≥ 9·capacity`
  - overflowing: `fill ≥ capacity`
  - dump rule: `5·load ≥ 4·capacity`
  - status classes: `100·load ≥ 90·capacity` and so on
- **Real numbers.** Q-values, rates and epsilon are `real`.
- **Random draws are inputs.**
  - A container step takes a uniform coin and the `randint` amount. The
    amount is required to lie in the range `randint` can return.
  - A truck step takes the epsilon coin and the `random.choice` action. The
    same action also serves as the `default` of the greedy `max`, which
    Python evaluates on every greedy call.
- **Greedy choice and tie-breaking.** The greedy choice over a Q-table row
  takes the first maximal action in `possible_actions` order. Rows are only
  ever created with all six actions in that order, so Python's
  dict-insertion order is that order too.
- **Which saved table each truck loads.** `load_q_table` runs in the
  truck's `setup`, before the environment assigns `truck_id`. Every truck
  therefore loads the file of truck 0. `World.Initial` and the truck
  constructor keep this: one optional saved table is shared by all three
  trucks.
- **Containers over twice their capacity.** Fill never exceeds twice the
  capacity only when it starts so. The drawn initial fill `randint(5, 20)`
  can exceed twice a capacity below 10. `World.EnvStepKeeps` therefore
  states the bound as preserved, not as always true.
- **Restored epsilon.** `max(0.2, e·0.98)` raises epsilon when the saved
  value is below 0.2, and lowers it to 0.2 between 0.2 and 0.2/0.98.
  `QLearning.RestoredEpsilon` states both sides.

## Model

| member | source | states |
|---|---|---|
| `Grid.PossibleActions` | agents2.py:93-94 | six distinct actions, every action listed |
| `Grid.EveryActionListed` | agents2.py:93-94 | every action value occurs in the fixed action order |
| `Grid.Moved` | agents2.py:174-181 | a move changes one coordinate by one, is blocked at the board edge, stays on the board; `collect`/`change_route` do not move |
| `Grid.Toward` | agents2.py:146-150 | answers `collect` exactly at the target; otherwise a move along x while the column differs, along y after that, and one step closer to the target |
| `Grid.RouteStep` | agents2.py:216-223 | the reroute step stays on the board and moves at most one cell |
| `Grid.RouteStepIsTowardMove` | agents2.py:216-223 | the reroute step is the steering move toward the target, and shortens the distance by one when not there |
| `Grid.FirstNearest` | agents2.py:142-143 | `min` with a distance key: an index of minimal distance, strictly nearer than every earlier entry |
| `Grid.MinDist` | agents2.py:185-186 | the minimum distance to a list of positions: a lower bound that is attained |
| `Grid.NearestIsSelf` | agents2.py:134-137 | the nearest point is the truck's own cell exactly when that cell is in the list |
| `Containers.Critical` | agents2.py:31-32 | `is_critical`: fill at or above 90% of the capacity, compared as `10·fill ≥ 9·capacity` |
| `Containers.Overflowing` | agents2.py:34-35 | `is_overflowing`: fill at or above the capacity |
| `Containers.CriticalIsNinetyPercent` | agents2.py:31-32 | the integer test holds exactly when `fill ≥ 0.9·capacity` in exact arithmetic |
| `Containers.OverflowingIsCritical` | agents2.py:31-35 | with non-negative capacity an overflowing container is critical; critical but not overflowing means 90% ≤ fill < 100% |
| `Containers.GeneratedFill` | agents2.py:18-24 | the fill changes only when the coin is below the density, then by the drawn amount (1–3, or 2–5 at density ≥ 0.3), clamped at twice the capacity; never decreases a fill within that bound |
| `Containers.Taken` | agents2.py:26-29 | what `collect_trash` removes is the smaller of fill and amount, never more than either |
| `Containers.TotalFillUpdate` | agents2.py:284 | replacing one container changes the total fill by exactly the change of that container |
| `Containers.TrashContainer.constructor` | agents2.py:12-16 | a container at its position with its capacity and fill |
| `Containers.TrashContainer.Step` | agents2.py:18-24 | the fill becomes the generated fill of the old fill |
| `Containers.TrashContainer.CollectTrash` | agents2.py:26-29 | returns the taken amount and lowers the fill by it |
| `Lookup.FirstAt` | agents2.py:266-270 | none exactly when no container is at the position; otherwise the first container there |
| `Lookup.CriticalPositions` | agents2.py:272-273 | contains the position of every critical container, and only positions of critical containers; order and count are stated by `CriticalPositionsInOrder` and `CriticalPositionsCount` |
| `Lookup.OverflowingPositions` | agents2.py:275-276 | contains the position of every overflowing container, and only positions of overflowing containers; order and count are stated by `OverflowingPositionsInOrder` and `OverflowingPositionsCount` |
| `Lookup.CriticalIndicesExact` | agents2.py:272-273 | the index list of the critical containers is strictly increasing and holds exactly the critical containers' indices |
| `Lookup.OverflowingIndicesExact` | agents2.py:275-276 | the index list of the overflowing containers is strictly increasing and holds exactly the overflowing containers' indices |
| `Lookup.CriticalPositionsInOrder` | agents2.py:272-273 | entry k of the critical list is the position of the k-th critical container in container order, so the list is fixed entry by entry |
| `Lookup.OverflowingPositionsInOrder` | agents2.py:275-276 | entry k of the overflowing list is the position of the k-th overflowing container in container order |
| `Lookup.CriticalPositionsCount` | agents2.py:272-273 | the critical list has exactly one entry per critical container |
| `Lookup.OverflowingPositionsCount` | agents2.py:275-276 | the overflowing list has exactly one entry per overflowing container, the multiplier of the −30 penalty |
| `Lookup.OverflowingSubseqOfCritical` | agents2.py:272-276 | with non-negative capacities the overflowing list is an order-preserving sub-list of the critical list |
| `QLearning.ZeroRow` | agents2.py:154 | the row a first visit creates maps all six actions to 0 |
| `QLearning.ZeroRowMax` | agents2.py:159 | the best value of a fresh row is 0 |
| `QLearning.Ensured` | agents2.py:153-156 | adds the state with a zero row when absent, changes no existing row, keeps rows complete |
| `QLearning.RowMax` | agents2.py:159 | `max(values())`: an upper bound of the row that is attained |
| `QLearning.FirstMax` | agents2.py:117-121 | the first action in order whose value is maximal among the actions present |
| `QLearning.Greedy` | agents2.py:117-121 | an empty row yields the random default; otherwise an action present with maximal value, and every action earlier in `possible_actions` order has a strictly smaller value (the first maximum wins ties) |
| `QLearning.FirstMaxOverActions` | agents2.py:117-121 | over the full action order the first maximum is found exactly when the row is non-empty, dominates every entry and strictly beats every earlier action |
| `QLearning.Blend` | agents2.py:160 | the new value `old + α(r + γ·next_max − old)`; its meaning is stated by `BlendProperties` |
| `QLearning.BlendProperties` | agents2.py:160 | rate 0 keeps the old value; with no reward and no discount a rate in (0,1] moves the value toward 0 without crossing it |
| `QLearning.EnsuredBoth` | agents2.py:153-156 | both rows present afterwards, the new ones zero, all others unchanged, rows kept complete |
| `QLearning.SetEntry` | agents2.py:161 | writes one entry and leaves every other entry of every row unchanged |
| `QLearning.Update` | agents2.py:152-161 | only `Q[s][a]` changes, to `old + α(r + γ·max Q[next] − old)` with old/max read before the write (0 for absent rows); both rows exist afterwards; rows stay complete |
| `QLearning.NoLearningKeepsValue` | agents2.py:160-161 | with α = 0 the entry keeps its old value |
| `QLearning.UpdateShrinksTowardZero` | agents2.py:160-161 | with zero reward and discount and α in (0,1], a non-zero entry moves toward 0 without crossing it |
| `QLearning.RestoredEpsilon` | agents2.py:64 | the larger of 0.2 and 0.98·saved: one of the two, at least both; not above the saved value when that is at least 0.2/0.98; above it when it is below 0.2 |
| `QLearning.LoadedEpsilon` | agents2.py:55-64 | no saved table keeps the configured rate; a saved table gives the restored rate of its stored epsilon, or of the configured one when none is stored |
| `QLearning.LoadedTable` | agents2.py:58-62 | the saved table's Q-table when one is present, else the empty table |
| `Policy.StateOf` | agents2.py:90-91 | `state()`: the position and the load as the table key |
| `Policy.CanCollectHere` | agents2.py:98-102 | rule 1: the first container here is non-empty and the truck has room |
| `Policy.WantsDump` | agents2.py:105-106 | rule 2: load at or above 80% of the capacity, compared as `5·load ≥ 4·capacity` |
| `Policy.WantsDumpIsEightyPercent` | agents2.py:105 | the integer test holds exactly when `load ≥ 0.8·capacity` in exact arithmetic |
| `Policy.MoveToDump` | agents2.py:123-137 | `collect` with load 0 exactly on a corner; elsewhere the `Toward` heading (x before y) to the first nearest corner, one step closer, load kept |
| `Policy.MoveToCritical` | agents2.py:139-150 | `collect` exactly on a critical position; elsewhere the `Toward` heading (x before y) to the first nearest one, one step closer |
| `Policy.ChooseAction` | agents2.py:96-121 | the priority chain: collect here whatever coin or table; else dump rule; else nearest critical; else random below epsilon, greedy otherwise; only the dump rule changes the load; `change_route` only from learning |
| `Policy.ForcedRulesIgnoreLearning` | agents2.py:96-111 | when rules 1–3 decide, coin, random pick, rates and table do not matter |
| `Policy.ShapingBonus` | agents2.py:183-189 | the shaping term is 0 or 2, and 0 without a move or without critical containers; when it is 2 is stated by `ShapingBonusWhenCloser` |
| `Policy.ShapingBonusWhenCloser` | agents2.py:183-189 | +2 exactly when some critical position is nearer the new cell than every critical position is to the old cell, that is when the nearest distance strictly drops |
| `Policy.FullPenalty` | agents2.py:228-229 | −20 when the load has reached the capacity, else 0 |
| `Policy.CollectHere` | agents2.py:191-205 | collects min(fill, room, 10) > 0 from the first container here, load up and fill down by it, +30 per unit and +100 per unit when still critical; −2 with nothing changed otherwise; load stays within capacity |
| `Policy.Execute` | agents2.py:169-235 | per action kind: new position, load, containers and reward (shaping, collection, reroute, −20 when full, −30 per overflowing container after the action); keeps the truck on the board and within capacity |
| `Policy.CollectMovesTrash` | agents2.py:191-201 | collection changes no position or capacity, raises no fill, and only the first container here loses what the truck gains |
| `Policy.ExecuteMovesTrash` | agents2.py:191-201 | for every action, the containers lose in total exactly what the truck's load gains |
| `Policy.CollectHereMovesTrash` | agents2.py:195-201 | a collection moves trash from the containers to the truck without loss |
| `Policy.CriticalBonusTestsFillAfterCollection` | agents2.py:197-200 | a container critical before the collection but not after earns only the +30 rate (27/30 filled, 10 taken: 300) |
| `Policy.ChangeRouteEarnsNoShaping` | agents2.py:183-224 | a step right toward a critical container earns +2, the same step by rerouting earns only +10 with no shaping |
| `Policy.TruckStep` | agents2.py:163-167 | one decide–execute–learn step keeps the truck invariant and the fixed parameters, and leaves rows for the old and the new state; where the truck and containers end is stated by `TruckStepLearns` |
| `Policy.TruckStepLearns` | agents2.py:163-167 | the truck ends at `Execute`'s position and load and the containers become `Execute`'s containers; only the chosen action's entry of the row of the state read before deciding is rewritten, to the blend of the reward and the reached state's best value; other known rows kept, new rows zero |
| `World.Initial` | agents2.py:243-257 | five containers at the fixed positions with the drawn fills, three empty trucks at the start corners sharing truck 0's saved table; the invariant holds for fills in 5..20 |
| `World.StepBins` | agents2.py:263 | every container generates with its own draw; positions and capacities kept; invariant and the twice-capacity bound kept |
| `World.RunTrucks` | agents2.py:264 | the first k trucks step in list order, each seeing the containers the earlier ones left |
| `World.EnvStep` | agents2.py:262-264 | all containers step first, then all trucks in order |
| `World.TruckStepKeeps` | agents2.py:163-167 | a truck step keeps the truck and container invariants and only drains containers |
| `World.RunTrucksKeeps` | agents2.py:264 | the trucks' pass keeps every invariant and only drains containers |
| `World.EnvStepKeeps` | agents2.py:262-264 | an environment step keeps containers and trucks on the board, loads within capacity, rows complete, and the twice-capacity bound |
| `World.TruckStepMovesTrash` | agents2.py:163-167 | what a truck step takes from the containers equals its load gain after deciding |
| `World.Efficiency` | agents2.py:284-286 | collected over all trash as a percentage in [0, 100] with the `max(1, …)` guard |
| `World.EndEfficiency` | agents2.py:284-286 | `end()`'s figure on the trucks' loads and the fills left |
| `Simulation.TrashTruck.constructor` | agents2.py:42-53 | an empty truck at its start with the loaded table and epsilon |
| `Simulation.TrashTruck.MoveToDump` | agents2.py:123-137 | answers the action and leaves the load of `Policy.MoveToDump` |
| `Simulation.TrashTruck.ChooseAction` | agents2.py:96-121 | answers the action and leaves the load of `Policy.ChooseAction` |
| `Simulation.TrashTruck.Execute` | agents2.py:169-235 | leaves position, load and containers as `Policy.Execute` says, returns its reward and the new state |
| `Simulation.TrashTruck.Moving` | agents2.py:170-189 | the moved position and the shaping term, on the containers before collection |
| `Simulation.TrashTruck.Rerouting` | agents2.py:207-226 | for `change_route`: one step toward the first nearest critical container and +10, or the moved position and −2 when none is critical; any other action keeps the moved position and adds 0 |
| `Simulation.TrashTruck.Collecting` | agents2.py:191-205 | for `collect`, reward share, load and containers as `Policy.CollectHere` says; any other action changes nothing and adds 0 |
| `Simulation.TrashTruck.Penalties` | agents2.py:228-232 | −20 when the load has reached the capacity, and −30 per overflowing container |
| `Simulation.TrashTruck.CollectAt` | agents2.py:191-205 | reward share, load and containers as `Policy.CollectHere` says |
| `Simulation.TrashTruck.TakeFrom` | agents2.py:197 | `collect_trash` on the container found here changes that container in the list and no other |
| `Simulation.TrashTruck.UpdateQ` | agents2.py:152-161 | the table becomes `QLearning.Update` of the old table |
| `Simulation.TrashTruck.EnsureRows` | agents2.py:153-156 | the table gains zero rows for the two states where absent |
| `Simulation.TrashTruck.Step` | agents2.py:163-167 | truck and containers end as `Policy.TruckStep` says |
| `Simulation.GarbageEnvironment.constructor` | agents2.py:242-260 | the initial world, the invariant, the initial trash total and truck ids 0, 1, 2 |
| `Simulation.GarbageEnvironment.GetContainerAtPosition` | agents2.py:266-270 | null exactly when no container is at the position; otherwise the first container there |
| `Simulation.GarbageEnvironment.Step` | agents2.py:262-264 | the world becomes `World.EnvStep` of the old world, and the invariant is kept |
| `Simulation.GarbageEnvironment.StepContainers` | agents2.py:263 | the containers become `World.StepBins` of the old ones |
| `Simulation.GarbageEnvironment.StepTrucks` | agents2.py:264 | the world becomes `World.RunTrucks` of the old containers and trucks |
| `Simulation.GarbageEnvironment.TruckLoop` | agents2.py:264 | after the loop every truck and the containers are as the pass of all trucks leaves them |
| `Simulation.GarbageEnvironment.StepTruckAt` | agents2.py:264 | truck i steps on the containers the earlier trucks left; the other trucks do not change |
| `Snapshot.TruckStatusOf` | api_server.py:87-97 | full iff load ≥ 90%; half full iff 50% ≤ load < 90%; collecting iff 0 < load < 50%; empty iff load ≤ 0 |
| `Snapshot.StatusMonotone` | api_server.py:87-97 | more load never gives an earlier class in empty < collecting < half full < full |
| `Snapshot.DumpRuleBetweenClasses` | api_server.py:90-93 | a full truck satisfies the 80% dump rule, and a truck that does is at least half full |
| `Snapshot.ContainerStatusOf` | api_server.py:99-108 | overflowing iff overflowing; critical iff critical and not overflowing; medium iff 70% ≤ fill < 90%; normal iff fill < 70% |
| `Snapshot.UrgentIsCritical` | api_server.py:99-104 | the two urgent classes are exactly the critical containers |
| `Snapshot.SnapshotEfficiency` | api_server.py:140-142 | 0 when there is no trash in the system, else collected/total×100, within [0, 100] when nothing is negative |
| `Snapshot.SnapshotMatchesEnd` | api_server.py:140-142 | with non-negative totals the snapshot efficiency equals the end-of-run efficiency |
| `Snapshot.CriticalCount` | api_server.py:143 | one per critical container; its meaning is stated by `CriticalCountIsPositions` and `CriticalCountIsSize` |
| `Snapshot.CriticalCountIsPositions` | api_server.py:143 | the critical count is the length of the critical-position list the trucks use |
| `Snapshot.CriticalCountIsSize` | api_server.py:143 | the critical count is the number of critical containers, overflowing ones included |
| `Snapshot.StatsOf` | api_server.py:139-143 | the snapshot aggregates; in a world that keeps its invariant the efficiency lies in [0, 100] and equals the end-of-run figure |

## Left out

- File persistence: `load_q_table`/`save_q_table` read and write pickle files
  and swallow exceptions. The file contents become the `saved` input, a
  missing or unreadable file is `None`, and the saved table is required to
  have complete rows. `save_q_table` and the run counter are not modelled.
- The agentpy framework: `ap.Grid`, `ap.AgentList`, `model.run` and the
  lifecycle. The environment is built explicitly by its constructor.
- Random number generation: every draw is an input of the step that
  consumes it.
- Floating point: thresholds are exact rationals and Q-values are `real`
  numbers, so rounding at an exact boundary is not modelled.
- Printing, the matplotlib visualisation and the console reports.
- The web server plumbing: endpoints, threads, globals, `sleep`, the
  100-entry history, the pydantic records and the loops that build them.
  Only the status classifiers and the aggregates are modelled.
- `convert_position_to_3d`: presentation scaling for the 3D client.
- Simulation.GarbageEnvironment.constructor: requires a non-negative truck capacity and container limit. The configuration accepts any integer, so a negative value is a case the model does not cover.
- Snapshot.TruckStatusOf: requires a positive capacity; the source divides by
  the capacity and fails on 0.
