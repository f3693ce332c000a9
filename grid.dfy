/** The 8x8 board the trucks drive on, the six truck actions, one-cell moves
    and the "first nearest point" choice shared by the dump and critical
    steering rules. */
module Grid {

  /** Largest coordinate of the board; every boundary test uses 7. */
  const MaxCoord: int := 7

  datatype Pos = Pos(x: int, y: int)

  /** The truck actions, in the order `possible_actions` lists them. */
  datatype Action = Up | Down | Left | Right | Collect | ChangeRoute

  const Actions: seq<Action> := [Up, Down, Left, Right, Collect, ChangeRoute]

  /** The action list, which also fixes the key order of a lazily created
      Q-table row. */
  function PossibleActions(): (r: seq<Action>)
    ensures |r| == 6
    ensures forall a: Action :: a in r
    ensures forall i, j :: 0 <= i < j < |r| ==> r[i] != r[j]
  {
    EveryActionListed();
    Actions
  }

  lemma EveryActionListed()
    ensures forall a: Action :: a in Actions
  {
    forall a: Action ensures a in Actions {
      match a
      case Up => assert Actions[0] == a;
      case Down => assert Actions[1] == a;
      case Left => assert Actions[2] == a;
      case Right => assert Actions[3] == a;
      case Collect => assert Actions[4] == a;
      case ChangeRoute => assert Actions[5] == a;
    }
  }

  predicate InGrid(p: Pos) {
    0 <= p.x <= MaxCoord && 0 <= p.y <= MaxCoord
  }

  function Abs(n: int): nat {
    if n < 0 then -n else n
  }

  /** Manhattan distance. */
  function Dist(p: Pos, q: Pos): nat {
    Abs(p.x - q.x) + Abs(p.y - q.y)
  }

  /** The position a movement action leads to; a move that would leave the
      board, and every non-movement action, keeps the position. */
  function Moved(p: Pos, a: Action): (q: Pos)
    ensures InGrid(p) ==> InGrid(q)
    ensures Dist(p, q) <= 1
    ensures a == Collect || a == ChangeRoute ==> q == p
    ensures a == Up ==> q.x == p.x && q.y == if p.y < MaxCoord then p.y + 1 else p.y
    ensures a == Down ==> q.x == p.x && q.y == if p.y > 0 then p.y - 1 else p.y
    ensures a == Left ==> q.y == p.y && q.x == if p.x > 0 then p.x - 1 else p.x
    ensures a == Right ==> q.y == p.y && q.x == if p.x < MaxCoord then p.x + 1 else p.x
  {
    match a
    case Up => if p.y < MaxCoord then Pos(p.x, p.y + 1) else p
    case Down => if p.y > 0 then Pos(p.x, p.y - 1) else p
    case Left => if p.x > 0 then Pos(p.x - 1, p.y) else p
    case Right => if p.x < MaxCoord then Pos(p.x + 1, p.y) else p
    case _ => p
  }

  /** The single-axis heading toward a target: x first, then y, and
      `Collect` once the target is reached. */
  function Toward(p: Pos, t: Pos): (a: Action)
    ensures a == Collect <==> p == t
    ensures a != ChangeRoute
    ensures p.x != t.x ==> a == Left || a == Right
    ensures p.x == t.x && p.y != t.y ==> a == Up || a == Down
    ensures InGrid(p) && InGrid(t) && p != t ==> Dist(Moved(p, a), t) + 1 == Dist(p, t)
  {
    if p.x < t.x then Right
    else if p.x > t.x then Left
    else if p.y < t.y then Up
    else if p.y > t.y then Down
    else Collect
  }

  /** The one-cell step `change_route` takes toward a target, with its own
      boundary tests. */
  function RouteStep(p: Pos, t: Pos): (q: Pos)
    ensures InGrid(p) ==> InGrid(q)
    ensures Dist(p, q) <= 1
  {
    if p.x < t.x && p.x < MaxCoord then Pos(p.x + 1, p.y)
    else if p.x > t.x && p.x > 0 then Pos(p.x - 1, p.y)
    else if p.y < t.y && p.y < MaxCoord then Pos(p.x, p.y + 1)
    else if p.y > t.y && p.y > 0 then Pos(p.x, p.y - 1)
    else p
  }

  /** On the board, the `change_route` step is the move `Toward` chooses. */
  lemma RouteStepIsTowardMove(p: Pos, t: Pos)
    requires InGrid(p) && InGrid(t)
    ensures RouteStep(p, t) == Moved(p, Toward(p, t))
    ensures p != t ==> Dist(RouteStep(p, t), t) + 1 == Dist(p, t)
  {
  }

  /** Index of the first point at the least distance from `p` (Python's `min`
      with a key keeps the first of equal keys). */
  function FirstNearest(ps: seq<Pos>, p: Pos): (k: nat)
    requires |ps| > 0
    ensures k < |ps|
    ensures forall j :: 0 <= j < |ps| ==> Dist(p, ps[k]) <= Dist(p, ps[j])
    ensures forall j :: 0 <= j < k ==> Dist(p, ps[k]) < Dist(p, ps[j])
  {
    if |ps| == 1 then 0
    else
      var k := 1 + FirstNearest(ps[1..], p);
      if Dist(p, ps[0]) <= Dist(p, ps[k]) then 0 else k
  }

  /** The smallest distance from `p` to a point of `ps`. */
  function MinDist(ps: seq<Pos>, p: Pos): (d: nat)
    requires |ps| > 0
    ensures forall j :: 0 <= j < |ps| ==> d <= Dist(p, ps[j])
    ensures exists j :: 0 <= j < |ps| && d == Dist(p, ps[j])
  {
    Dist(p, ps[FirstNearest(ps, p)])
  }

  /** The nearest point is at distance zero exactly when `p` is in the list. */
  lemma NearestIsSelf(ps: seq<Pos>, p: Pos)
    requires |ps| > 0
    ensures ps[FirstNearest(ps, p)] == p <==> p in ps
  {
    if p in ps {
      var j :| 0 <= j < |ps| && ps[j] == p;
      assert Dist(p, ps[j]) == 0;
    }
  }
}
