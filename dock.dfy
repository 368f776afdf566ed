/**
 * The dock: a backlog of freight containers bounded by a capacity fixed at construction,
 * and a FIFO pool of at most three idle oil trucks. The dock holds truck handles of any
 * type; the oil trucks themselves are defined beside it, in OilTrucks.
 */
module Docking {
  import opened Wrappers
  import opened Containers

  /** The bound of the ArrayBlockingQueue that holds the idle oil trucks. */
  const OilTruckPoolCapacity := 3

  /**
   * `c` may leave the backlog `b` next: it is there and nothing there is strictly smaller.
   * The order is that of the containers' compareTo, given as a rank.
   */
  predicate IsLeast(c: FreightContainer, b: multiset<FreightContainer>, rank: FreightContainer -> int) {
    c in b && forall x | x in b :: rank(c) <= rank(x)
  }

  /** A non-empty backlog always has a container that may leave it next. */
  lemma {:induction false} LeastExists(b: multiset<FreightContainer>, rank: FreightContainer -> int)
    requires b != multiset{}
    ensures exists c :: IsLeast(c, b, rank)
    decreases |b|
  {
    var x :| x in b;
    var rest := b - multiset{x};
    if rest == multiset{} {
      assert b == multiset{x};
      assert IsLeast(x, b, rank);
    } else {
      LeastExists(rest, rank);
      var m :| IsLeast(m, rest, rank);
      assert b == rest + multiset{x};
      if rank(x) <= rank(m) {
        assert IsLeast(x, b, rank);
      } else {
        assert IsLeast(m, b, rank);
      }
    }
  }

  /**
   * `taken` is a possible order of takes from `b`: each container taken was least among
   * those still there.
   */
  ghost predicate TakenInOrder(taken: seq<FreightContainer>, b: multiset<FreightContainer>, rank: FreightContainer -> int) {
    forall i {:trigger taken[..i]} :: 0 <= i < |taken| ==> IsLeast(taken[i], b - multiset(taken[..i]), rank)
  }

  /** Taking a least container among those still waiting extends a possible order of takes. */
  lemma TakenInOrderExtend(taken: seq<FreightContainer>, b: multiset<FreightContainer>, rank: FreightContainer -> int,
                           waiting: multiset<FreightContainer>, c: FreightContainer)
    requires TakenInOrder(taken, b, rank)
    requires b == waiting + multiset(taken)
    requires IsLeast(c, waiting, rank)
    ensures TakenInOrder(taken + [c], b, rank)
  {
    assert waiting == b - multiset(taken);
    var t := taken + [c];
    forall i | 0 <= i < |t|
      ensures IsLeast(t[i], b - multiset(t[..i]), rank)
    {
      if i < |taken| {
        assert t[..i] == taken[..i];
      } else {
        assert t[..i] == taken;
      }
    }
  }

  /** Containers taken one by one leave the backlog in non-decreasing rank. */
  lemma TakenInOrderAscends(taken: seq<FreightContainer>, b: multiset<FreightContainer>, rank: FreightContainer -> int, i: int, j: int)
    requires TakenInOrder(taken, b, rank)
    requires 0 <= i < j < |taken|
    ensures rank(taken[i]) <= rank(taken[j])
  {
    assert IsLeast(taken[i], b - multiset(taken[..i]), rank);
    assert IsLeast(taken[j], b - multiset(taken[..j]), rank);
    assert taken[..j] == taken[..i] + taken[i..j];
    assert multiset(taken[..j]) == multiset(taken[..i]) + multiset(taken[i..j]);
    assert taken[j] in b - multiset(taken[..i]);
  }

  /**
   * Under a rank that agrees with DefaultFreightContainer.compareTo, a default container
   * is only taken from a backlog that holds nothing but default containers. The backlog's
   * real order also depends on the heated and cooled comparisons, which need not agree.
   */
  lemma DefaultLeavesLast(c: FreightContainer, b: multiset<FreightContainer>, rank: FreightContainer -> int)
    requires RankAgreesWithDefault(rank)
    requires IsLeast(c, b, rank) && c.kind == Default
    ensures forall x | x in b :: x.kind == Default
  {
    forall x | x in b
      ensures x.kind == Default
    {
      assert rank(c) <= rank(x);
    }
  }

  /**
   * Under a rank that agrees with DefaultFreightContainer.compareTo, once a default
   * container has been taken only default containers follow.
   */
  lemma DefaultsLeaveLast(taken: seq<FreightContainer>, b: multiset<FreightContainer>, rank: FreightContainer -> int, i: int, j: int)
    requires RankAgreesWithDefault(rank)
    requires TakenInOrder(taken, b, rank)
    requires 0 <= i < j < |taken| && taken[i].kind == Default
    ensures taken[j].kind == Default
  {
    TakenInOrderAscends(taken, b, rank, i, j);
  }

  class Dock<Truck> {
    /** Fixed at construction: the most containers the backlog may hold. */
    const containerCapacity: int
    /** The order in which containers leave the backlog (smaller first). */
    const rank: FreightContainer -> int
    var backlog: multiset<FreightContainer>
    var oilTrucks: seq<Truck>

    ghost predicate Valid()
      reads this
    {
      1 <= containerCapacity &&
      |backlog| <= containerCapacity &&
      |oilTrucks| <= OilTruckPoolCapacity
    }

    /** Dock(capacity): an empty backlog and an empty truck pool. */
    constructor (capacity: int, rank: FreightContainer -> int)
      requires capacity >= 1
      ensures Valid()
      ensures containerCapacity == capacity && this.rank == rank
      ensures backlog == multiset{} && oilTrucks == []
    {
      containerCapacity := capacity;
      this.rank := rank;
      backlog := multiset{};
      oilTrucks := [];
    }

    /**
     * placeContainer: on a full backlog the wait for room times out (nobody else takes
     * from it) and the container is refused; otherwise it is added.
     */
    method PlaceContainer(container: FreightContainer) returns (placed: bool)
      requires Valid()
      modifies this`backlog
      ensures Valid()
      ensures placed <==> |old(backlog)| < containerCapacity
      ensures backlog == if placed then old(backlog) + multiset{container} else old(backlog)
    {
      if |backlog| == containerCapacity {
        return false;
      }
      backlog := backlog + multiset{container};
      return true;
    }

    /**
     * getContainer: null when the backlog stays empty; otherwise one container with no
     * strictly smaller one is removed and returned. Which of several equally ranked
     * containers is taken is not fixed.
     */
    method GetContainer() returns (next: Option<FreightContainer>)
      requires Valid()
      modifies this`backlog
      ensures Valid()
      ensures old(backlog) == multiset{} ==> next == None && backlog == old(backlog)
      ensures old(backlog) != multiset{} ==>
        next.Some? && IsLeast(next.value, old(backlog), rank) &&
        backlog == old(backlog) - multiset{next.value}
    {
      if backlog == multiset{} {
        return None;
      }
      LeastExists(backlog, rank);
      var c :| IsLeast(c, backlog, rank);
      backlog := backlog - multiset{c};
      return Some(c);
    }

    /** registerOilTruck: appends at the tail. A full pool would block forever. */
    method RegisterOilTruck(truck: Truck) returns (registered: bool)
      requires Valid() && |oilTrucks| < OilTruckPoolCapacity
      modifies this`oilTrucks
      ensures Valid() && registered
      ensures oilTrucks == old(oilTrucks) + [truck]
    {
      oilTrucks := oilTrucks + [truck];
      return true;
    }

    /** getOilTruck: removes the earliest registered truck. An empty pool would block forever. */
    method GetOilTruck() returns (truck: Truck)
      requires Valid() && oilTrucks != []
      modifies this`oilTrucks
      ensures Valid()
      ensures truck == old(oilTrucks)[0] && oilTrucks == old(oilTrucks)[1..]
    {
      truck := oilTrucks[0];
      oilTrucks := oilTrucks[1..];
    }
  }
}
