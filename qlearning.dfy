/** The truck's learned value table: states, rows of action values, lazy row
    creation, the greedy choice and the one-step tabular update. */
module QLearning {
  import opened Grid
  import opened Lookup

  /** A truck's state: its position and its load. */
  datatype State = State(pos: Pos, load: int)

  type Row = map<Action, real>
  type QTable = map<State, Row>

  predicate Complete(row: Row) {
    forall a: Action :: a in row
  }

  /** Every row holds all six actions; lazy creation keeps this. */
  predicate RowsComplete(q: QTable) {
    forall s :: s in q ==> Complete(q[s])
  }

  /** The row a first visit creates. */
  function ZeroRow(): (row: Row)
    ensures Complete(row)
    ensures forall a: Action :: row[a] == 0.0
  {
    EveryActionListed();
    map a | a in Actions :: 0.0
  }

  lemma ZeroRowMax()
    ensures RowMax(ZeroRow()) == 0.0
  {
  }

  /** `q` with a zero row for `s` when `s` has none yet. */
  function Ensured(q: QTable, s: State): (q': QTable)
    ensures q'.Keys == q.Keys + {s}
    ensures forall t :: t in q ==> q'[t] == q[t]
    ensures s !in q ==> q'[s] == ZeroRow()
    ensures RowsComplete(q) ==> RowsComplete(q')
  {
    if s in q then q else q[s := ZeroRow()]
  }

  /** The largest value of `row` over the actions `acts`. */
  function MaxOver(row: Row, acts: seq<Action>): (m: real)
    requires |acts| > 0
    requires forall i :: 0 <= i < |acts| ==> acts[i] in row
    ensures forall i :: 0 <= i < |acts| ==> row[acts[i]] <= m
    ensures exists i :: 0 <= i < |acts| && row[acts[i]] == m
  {
    if |acts| == 1 then row[acts[0]]
    else
      var m := MaxOver(row, acts[1..]);
      assert forall i :: 1 <= i < |acts| ==> acts[i] == acts[1..][i - 1];
      if row[acts[0]] >= m then row[acts[0]] else m
  }

  /** `max(row.values())` of a complete row. */
  function RowMax(row: Row): (m: real)
    requires Complete(row)
    ensures forall a: Action :: row[a] <= m
    ensures exists a: Action :: row[a] == m
  {
    EveryActionListed();
    var m := MaxOver(row, Actions);
    MaxOverAllActions(row, m);
    m
  }

  lemma MaxOverAllActions(row: Row, m: real)
    requires Complete(row)
    requires forall i :: 0 <= i < |Actions| ==> row[Actions[i]] <= m
    requires exists i :: 0 <= i < |Actions| && row[Actions[i]] == m
    ensures forall a: Action :: row[a] <= m
    ensures exists a: Action :: row[a] == m
  {
    forall a: Action ensures row[a] <= m {
      assert Actions[IndexOf(a)] == a;
    }
  }

  /** Position of an action in `Actions`. */
  function IndexOf(a: Action): (i: nat)
    ensures i < |Actions| && Actions[i] == a
  {
    match a
    case Up => 0
    case Down => 1
    case Left => 2
    case Right => 3
    case Collect => 4
    case ChangeRoute => 5
  }

  /** Index into `acts` of the first action present in `row` whose value is
      maximal among the present ones: Python's `max(row, key=row.get)`,
      which keeps the first of equal keys in key order. */
  function FirstMax(row: Row, acts: seq<Action>): (r: Option<nat>)
    ensures r.None? <==> forall i :: 0 <= i < |acts| ==> acts[i] !in row
    ensures r.Some? ==> r.value < |acts| && acts[r.value] in row
    ensures r.Some? ==> forall i :: 0 <= i < |acts| && acts[i] in row ==> row[acts[i]] <= row[acts[r.value]]
    ensures r.Some? ==> forall i :: 0 <= i < r.value && acts[i] in row ==> row[acts[i]] < row[acts[r.value]]
  {
    if |acts| == 0 then None
    else
      var rest := FirstMax(row, acts[1..]);
      assert forall i :: 1 <= i < |acts| ==> acts[i] == acts[1..][i - 1];
      if acts[0] !in row then
        match rest
        case None => None
        case Some(k) => Some(k + 1)
      else
        match rest
        case None => Some(0)
        case Some(k) => if row[acts[0]] >= row[acts[k + 1]] then Some(0) else Some(k + 1)
  }

  /** The greedy choice for a state's row; an empty row (a state never seen)
      falls back to the random pick. Row keys are taken in `Actions` order,
      the insertion order of a lazily created row. */
  function Greedy(row: Row, pick: Action): (a: Action)
    ensures (forall b: Action :: b !in row) ==> a == pick
    ensures (exists b: Action :: b in row) ==> a in row && forall b :: b in row ==> row[b] <= row[a]
    ensures (exists b: Action :: b in row) ==>
              forall b :: b in row && IndexOf(b) < IndexOf(a) ==> row[b] < row[a]
  {
    FirstMaxOverActions(row);
    match FirstMax(row, Actions)
    case None => pick
    case Some(i) => Actions[i]
  }

  lemma FirstMaxOverActions(row: Row)
    ensures var r := FirstMax(row, Actions);
            (r.None? <==> forall b: Action :: b !in row) &&
            (r.Some? ==> forall b :: b in row ==> row[b] <= row[Actions[r.value]]) &&
            (r.Some? ==> forall b :: b in row && IndexOf(b) < IndexOf(Actions[r.value]) ==> row[b] < row[Actions[r.value]])
  {
    var r := FirstMax(row, Actions);
    assert forall i :: 0 <= i < |Actions| ==> IndexOf(Actions[i]) == i;
    forall b: Action | b in row ensures r.Some? && row[b] <= row[Actions[r.value]] {
      assert Actions[IndexOf(b)] in row;
    }
  }

  /** The row of `s`, or the empty dict for a state never seen. */
  function RowOf(q: QTable, s: State): Row {
    if s in q then q[s] else map[]
  }

  /** The one-step update rule, a function of the old value, the reward,
      the next state's best value and the two rates. */
  function Blend(old_: real, reward: real, nextMax: real, alpha: real, gamma: real): real {
    old_ + alpha * (reward + gamma * nextMax - old_)
  }

  /** Learning rate 0 keeps the value; with no reward and no discount a rate
      in (0,1] moves a non-zero value strictly toward 0 without crossing it. */
  lemma BlendProperties(old_: real, reward: real, nextMax: real, alpha: real, gamma: real)
    ensures alpha == 0.0 ==> Blend(old_, reward, nextMax, alpha, gamma) == old_
    ensures 0.0 < alpha <= 1.0 && reward == 0.0 && gamma == 0.0 && old_ > 0.0 ==>
              0.0 <= Blend(old_, reward, nextMax, alpha, gamma) < old_
    ensures 0.0 < alpha <= 1.0 && reward == 0.0 && gamma == 0.0 && old_ < 0.0 ==>
              old_ < Blend(old_, reward, nextMax, alpha, gamma) <= 0.0
  {
    if reward == 0.0 && gamma == 0.0 {
      assert Blend(old_, reward, nextMax, alpha, gamma) == old_ * (1.0 - alpha);
      ScaledTowardZero(old_, alpha);
    }
  }

  lemma ScaledTowardZero(v: real, alpha: real)
    ensures 0.0 < alpha <= 1.0 && v > 0.0 ==> 0.0 <= v * (1.0 - alpha) < v
    ensures 0.0 < alpha <= 1.0 && v < 0.0 ==> v < v * (1.0 - alpha) <= 0.0
  {
  }

  /** The lazy initialisation of `update_q`: first `s`, then `next`. */
  function EnsuredBoth(q: QTable, s: State, next: State): (q1: QTable)
    requires RowsComplete(q)
    ensures RowsComplete(q1)
    ensures q1.Keys == q.Keys + {s, next}
    ensures forall t :: t in q1 ==> q1[t] == if t in q then q[t] else ZeroRow()
  {
    Ensured(Ensured(q, s), next)
  }

  /** `q` with the single entry `q[s][a]` overwritten. */
  function SetEntry(q: QTable, s: State, a: Action, v: real): (q': QTable)
    requires RowsComplete(q) && s in q
    ensures RowsComplete(q')
    ensures q'.Keys == q.Keys
    ensures q'[s][a] == v
    ensures forall b: Action :: b != a ==> q'[s][b] == q[s][b]
    ensures forall t :: t in q' && t != s ==> q'[t] == q[t]
  {
    q[s := q[s][a := v]]
  }

  /** `update_q`: both states get a zero row if new, the maximum of the next
      state's row is read, then only `Q[s][a]` is overwritten. */
  function Update(q: QTable, s: State, a: Action, reward: real, next: State, alpha: real, gamma: real): (q': QTable)
    requires RowsComplete(q)
    ensures RowsComplete(q')
    ensures q'.Keys == q.Keys + {s, next}
    ensures var old_ := if s in q then q[s][a] else 0.0;
            var nextMax := if next in q then RowMax(q[next]) else 0.0;
            q'[s][a] == Blend(old_, reward, nextMax, alpha, gamma)
    ensures forall b: Action :: b != a ==> q'[s][b] == (if s in q then q[s][b] else 0.0)
    ensures forall t :: t in q' && t != s ==> q'[t] == (if t in q then q[t] else ZeroRow())
  {
    var q1 := EnsuredBoth(q, s, next);
    var nextMax := RowMax(q1[next]);
    ZeroRowMax();
    assert nextMax == if next in q then RowMax(q[next]) else 0.0;
    SetEntry(q1, s, a, Blend(q1[s][a], reward, nextMax, alpha, gamma))
  }

  /** `Update` as its two stages: the lazy initialisation, then the write
      of the blended value read from the initialised table. This spells out
      the definition of `Update` for the proof of the truck object's
      `UpdateQ`, which performs the two stages in place. */
  lemma UpdateInStages(q: QTable, s: State, a: Action, reward: real, next: State, alpha: real, gamma: real)
    requires RowsComplete(q)
    ensures var q1 := EnsuredBoth(q, s, next);
            Update(q, s, a, reward, next, alpha, gamma)
              == SetEntry(q1, s, a, Blend(q1[s][a], reward, RowMax(q1[next]), alpha, gamma))
  {
  }

  /** With learning rate 0 the updated entry keeps its value. */
  lemma NoLearningKeepsValue(q: QTable, s: State, a: Action, reward: real, next: State, gamma: real)
    requires RowsComplete(q)
    ensures Update(q, s, a, reward, next, 0.0, gamma)[s][a] == (if s in q then q[s][a] else 0.0)
  {
    var old_ := if s in q then q[s][a] else 0.0;
    var nextMax := if next in q then RowMax(q[next]) else 0.0;
    BlendProperties(old_, reward, nextMax, 0.0, gamma);
  }

  /** With no reward and no discount, a learning rate in (0,1] moves a
      non-zero entry strictly toward 0 without crossing it. */
  lemma UpdateShrinksTowardZero(q: QTable, s: State, a: Action, next: State, alpha: real)
    requires RowsComplete(q)
    requires 0.0 < alpha <= 1.0
    requires s in q && q[s][a] != 0.0
    ensures var v, w := q[s][a], Update(q, s, a, 0.0, next, alpha, 0.0)[s][a];
            (v > 0.0 ==> 0.0 <= w < v) && (v < 0.0 ==> v < w <= 0.0)
  {
    var nextMax := if next in q then RowMax(q[next]) else 0.0;
    BlendProperties(q[s][a], 0.0, nextMax, alpha, 0.0);
  }

  /** The exploration rate restored from a saved table: `max(0.2, e * 0.98)`. */
  function RestoredEpsilon(saved: real): (e: real)
    ensures e >= 0.2
    ensures saved >= 0.2 / 0.98 ==> e <= saved
    ensures 0.0 <= saved < 0.2 ==> e > saved
    ensures e >= saved * 0.98 && (e == 0.2 || e == saved * 0.98)
  {
    if saved * 0.98 >= 0.2 then saved * 0.98 else 0.2
  }

  /** A table saved by an earlier run, with its exploration rate when one
      was recorded. */
  datatype SavedTable = SavedTable(q: QTable, epsilon: Option<real>)

  /** The exploration rate after `load_q_table`: unchanged when no saved
      table was read, else restored from the saved rate, or from the
      configured one when the file recorded none. */
  function LoadedEpsilon(configured: real, saved: Option<SavedTable>): (e: real)
    ensures saved.None? ==> e == configured
    ensures saved.Some? ==> e >= 0.2
    ensures saved.Some? && saved.value.epsilon.None? ==> e == RestoredEpsilon(configured)
    ensures saved.Some? && saved.value.epsilon.Some? ==> e == RestoredEpsilon(saved.value.epsilon.value)
  {
    match saved
    case None => configured
    case Some(t) => RestoredEpsilon(if t.epsilon.Some? then t.epsilon.value else configured)
  }

  /** The table after `load_q_table`: the saved one when read, else empty. */
  function LoadedTable(saved: Option<SavedTable>): (q: QTable)
    ensures saved.None? ==> q == map[]
    ensures saved.Some? ==> q == saved.value.q
  {
    if saved.Some? then saved.value.q else map[]
  }
}
