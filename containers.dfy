/** A waste container: a bounded counter that fills stochastically and is
    emptied by trucks. */
module Containers {
  import opened Grid

  /** The observable state of one container. */
  datatype Bin = Bin(pos: Pos, capacity: int, fill: int)

  /** Critical: fill at or above 90% of capacity. */
  predicate Critical(b: Bin) {
    10 * b.fill >= 9 * b.capacity
  }

  /** Overflowing: fill at or above capacity. */
  predicate Overflowing(b: Bin) {
    b.fill >= b.capacity
  }

  /** The integer test is the source's `current_fill >= 0.9 * capacity`
      read in exact arithmetic. */
  lemma CriticalIsNinetyPercent(b: Bin)
    ensures Critical(b) <==> b.fill as real >= 0.9 * b.capacity as real
  {
  }

  lemma {:induction false} OverflowingIsCritical(b: Bin)
    requires b.capacity >= 0
    ensures Overflowing(b) ==> Critical(b)
    ensures Critical(b) && !Overflowing(b) ==> 9 * b.capacity <= 10 * b.fill < 10 * b.capacity
  {
  }

  /** The values `random.randint` can draw for one generation step: [2,5]
      when the population density is at least 0.3, else [1,3]. */
  predicate DrawInRange(density: real, amount: int) {
    if density >= 0.3 then 2 <= amount <= 5 else 1 <= amount <= 3
  }

  /** Container fill after one step: with a coin below the density, the drawn
      amount is added and the result clamped at twice the capacity. */
  function GeneratedFill(fill: int, capacity: int, coin: real, density: real, amount: int): (r: int)
    requires DrawInRange(density, amount)
    ensures r > fill ==> r <= 2 * capacity
    ensures fill <= 2 * capacity ==> fill <= r <= 2 * capacity
    ensures coin >= density ==> r == fill
    ensures coin < density && fill + amount <= 2 * capacity ==> r == fill + amount
    ensures coin < density && fill + amount > 2 * capacity ==> r == 2 * capacity
    ensures r != fill ==> coin < density
    ensures 0 <= fill && 0 <= capacity ==> 0 <= r
    ensures r > fill && density >= 0.3 ==> 1 <= r - fill <= 5
    ensures r > fill && density < 0.3 ==> 1 <= r - fill <= 3
  {
    if coin < density then
      if fill + amount <= 2 * capacity then fill + amount else 2 * capacity
    else fill
  }

  /** What `collect_trash(amount)` removes: never more than is there, never
      more than asked for. */
  function Taken(fill: int, amount: int): (c: int)
    ensures c <= fill && c <= amount
    ensures c == fill || c == amount
    ensures fill >= 0 && amount >= 0 ==> 0 <= c && 0 <= fill - c
  {
    if fill <= amount then fill else amount
  }

  /** Sum of container fills. */
  function TotalFill(bins: seq<Bin>): int {
    if |bins| == 0 then 0 else bins[0].fill + TotalFill(bins[1..])
  }

  lemma {:induction false} TotalFillUpdate(bins: seq<Bin>, i: nat, b: Bin)
    requires i < |bins|
    ensures TotalFill(bins[i := b]) == TotalFill(bins) - bins[i].fill + b.fill
  {
    if i > 0 {
      assert bins[i := b][1..] == bins[1..][i - 1 := b];
      TotalFillUpdate(bins[1..], i - 1, b);
    }
  }

  /** One container agent; `position` and `capacity` are fixed at setup. */
  class TrashContainer {
    const position: Pos
    const capacity: int
    var currentFill: int

    function View(): Bin
      reads this
    {
      Bin(position, capacity, currentFill)
    }

    constructor (position: Pos, capacity: int, fill: int)
      ensures View() == Bin(position, capacity, fill)
    {
      this.position := position;
      this.capacity := capacity;
      this.currentFill := fill;
    }

    /** One generation step, with the uniform coin and the drawn amount as inputs. */
    method Step(coin: real, density: real, amount: int)
      requires DrawInRange(density, amount)
      modifies this
      ensures currentFill == GeneratedFill(old(currentFill), capacity, coin, density, amount)
    {
      if coin < density {
        if currentFill + amount <= capacity * 2 {
          currentFill := currentFill + amount;
        } else {
          currentFill := capacity * 2;
        }
      }
    }

    method CollectTrash(amount: int) returns (collected: int)
      modifies this
      ensures collected == Taken(old(currentFill), amount)
      ensures currentFill == old(currentFill) - collected
    {
      collected := if currentFill <= amount then currentFill else amount;
      currentFill := currentFill - collected;
    }
  }
}
