/**
 * Pump: takes oil containers off an oil ship, head first, and pumps each into the oil
 * truck that has waited longest in the dock's pool.
 */
module Pumps {
  import opened Wrappers
  import opened Containers
  import opened Ships
  import opened ShipKinds
  import opened Docking
  import opened OilTrucks

  /**
   * The slot of truck `t`, holding `slot` before, after `items` have been pumped in turn
   * into the trucks at the head of `pool`: setContainer fills an empty slot and leaves a
   * full one as it is.
   */
  ghost function SlotAfter(slot: Option<OilContainer>, t: OilTruck, pool: seq<OilTruck>, items: seq<OilContainer>): (r: Option<OilContainer>)
    requires |items| <= |pool|
    ensures r == slot || (slot == None && r.Some? && r.value in items)
    decreases |items|
  {
    if items == [] then slot
    else SlotAfter(if slot == None && pool[0] == t then Some(items[0]) else slot, t, pool[1..], items[1..])
  }

  /** Pumping one more container: it goes to the next truck of the pool if that truck's slot is empty. */
  lemma {:induction false} SlotAfterAppend(slot: Option<OilContainer>, t: OilTruck, pool: seq<OilTruck>, items: seq<OilContainer>, c: OilContainer)
    requires |items| < |pool|
    ensures SlotAfter(slot, t, pool, items + [c]) ==
      var s := SlotAfter(slot, t, pool, items); if s == None && pool[|items|] == t then Some(c) else s
    decreases |items|
  {
    if items == [] {
      assert items + [c] == [c];
    } else {
      assert (items + [c])[0] == items[0] && (items + [c])[1..] == items[1..] + [c];
      SlotAfterAppend(if slot == None && pool[0] == t then Some(items[0]) else slot, t, pool[1..], items[1..], c);
    }
  }

  /** A full slot is never overwritten. */
  lemma {:induction false} FullSlotKept(x: OilContainer, t: OilTruck, pool: seq<OilTruck>, items: seq<OilContainer>)
    requires |items| <= |pool|
    ensures SlotAfter(Some(x), t, pool, items) == Some(x)
    decreases |items|
  {
    if items != [] {
      FullSlotKept(x, t, pool[1..], items[1..]);
    }
  }

  /** A truck that is not among the first |items| of the pool gets nothing. */
  lemma {:induction false} UnservedSlotKept(slot: Option<OilContainer>, t: OilTruck, pool: seq<OilTruck>, items: seq<OilContainer>)
    requires |items| <= |pool|
    requires forall j :: 0 <= j < |items| ==> pool[j] != t
    ensures SlotAfter(slot, t, pool, items) == slot
    decreases |items|
  {
    if items != [] {
      UnservedSlotKept(slot, t, pool[1..], items[1..]);
    }
  }

  /**
   * With distinct trucks, the truck at position j of the pool, if its slot was empty,
   * ends up holding the j-th container pumped.
   */
  lemma {:induction false} EachTruckGetsItsContainer(t: OilTruck, pool: seq<OilTruck>, items: seq<OilContainer>, j: nat)
    requires |items| <= |pool|
    requires forall a, b :: 0 <= a < b < |pool| ==> pool[a] != pool[b]
    requires j < |items| && pool[j] == t
    ensures SlotAfter(None, t, pool, items) == Some(items[j])
    decreases j
  {
    if j == 0 {
      FullSlotKept(items[0], t, pool[1..], items[1..]);
    } else {
      assert pool[0] != pool[j];
      EachTruckGetsItsContainer(t, pool[1..], items[1..], j - 1);
    }
  }

  /** What the as-written run pumps, given the ship's queue: everything but its head. */
  function PumpedAsWritten(f: seq<OilContainer>): (r: seq<OilContainer>)
    ensures f != [] ==> |r| == |f| - 1 && multiset(r) + multiset{f[0]} == multiset(f)
    ensures f == [] ==> r == []
  {
    if f == [] then [] else
      assert f == [f[0]] + f[1..];
      f[1..]
  }

  /** The head of a queue of distinct containers never reaches a truck in the as-written run. */
  lemma HeadNeverPumped(f: seq<OilContainer>)
    requires f != []
    requires forall a, b :: 0 <= a < b < |f| ==> f[a] != f[b]
    ensures f[0] !in PumpedAsWritten(f)
  {
  }

  /** A ship carrying [1, 2] delivers only container 2. */
  lemma TwoContainerShipLosesOne()
    ensures PumpedAsWritten([OilContainer(1), OilContainer(2)]) == [OilContainer(2)]
  {
  }

  /**
   * How the pump's loop ends for a queue `f` and a pool of `trucks` trucks: with enough
   * trucks every container is pumped, in order, and the ship is empty; otherwise the first
   * `trucks` containers are pumped, the next one is taken off the ship and held while the
   * pump waits for a truck that never comes, and the rest stay aboard.
   */
  predicate Drained(f: seq<OilContainer>, trucks: nat, offloaded: seq<OilContainer>, stuck: Option<OilContainer>, rest: seq<OilContainer>) {
    if |f| <= trucks then offloaded == f && stuck == None && rest == []
    else offloaded == f[..trucks] && stuck == Some(f[trucks]) && rest == f[trucks + 1..]
  }

  /** Nothing is lost or duplicated: what was pumped, what is held and what stays aboard make up the queue. */
  lemma DrainedAccountsForAll(f: seq<OilContainer>, trucks: nat, offloaded: seq<OilContainer>, stuck: Option<OilContainer>, rest: seq<OilContainer>)
    requires Drained(f, trucks, offloaded, stuck, rest)
    ensures f == offloaded + (if stuck.Some? then [stuck.value] else []) + rest
    ensures |offloaded| <= trucks
  {
    if |f| > trucks {
      assert f == f[..trucks] + [f[trucks]] + f[trucks + 1..];
    }
  }

  /**
   * A pump run as written before any oil truck has registered, on a ship of two or more
   * containers: nothing is pumped, and the pump waits forever holding the second container.
   */
  lemma {:induction false} EmptyPoolStopsAsWrittenRun(f: seq<OilContainer>, offloaded: seq<OilContainer>, stuck: Option<OilContainer>, rest: seq<OilContainer>)
    requires |f| >= 2
    requires Drained(PumpedAsWritten(f), 0, offloaded, stuck, rest)
    ensures offloaded == [] && stuck == Some(f[1]) && rest == f[2..]
  {
    assert PumpedAsWritten(f) == f[1..];
    assert f[1..][0] == f[1] && f[1..][1..] == f[2..];
  }

  class Pump {
    const dock: Dock<OilTruck>
    const ship: OilShip

    constructor (dock: Dock<OilTruck>, ship: OilShip)
      ensures this.dock == dock && this.ship == ship
    {
      this.dock := dock;
      this.ship := ship;
    }

    /**
     * The loop of run: take the ship's head, hand it to the oil offload strategy (take the
     * longest-waiting truck from the pool and pump into it), until the ship yields null.
     * When the pool runs dry first, getOilTruck waits forever: the pump is then `stuck`
     * holding the container it last took off the ship, and nothing afterwards happens.
     */
    method OffloadEach() returns (offloaded: seq<OilContainer>, stuck: Option<OilContainer>)
      requires dock.Valid() && ship.Valid()
      modifies ship`freight, dock`oilTrucks, dock.oilTrucks
      ensures dock.Valid() && ship.Valid() && ship.freight.bound == old(ship.freight.bound)
      ensures Drained(old(ship.freight.items), |old(dock.oilTrucks)|, offloaded, stuck, ship.freight.items)
      ensures dock.oilTrucks == old(dock.oilTrucks)[|offloaded|..]
      ensures forall t | t in old(dock.oilTrucks) ::
        t.container == SlotAfter(old(t.container), t, old(dock.oilTrucks), offloaded)
    {
      ghost var f := ship.freight.items;
      ghost var pool := dock.oilTrucks;
      offloaded := [];
      stuck := None;
      while true
        invariant dock.Valid() && ship.Valid() && ship.freight.bound == old(ship.freight.bound)
        invariant stuck == None
        invariant |offloaded| <= |f| && |offloaded| <= |pool| && offloaded == f[..|offloaded|]
        invariant ship.freight.items == f[|offloaded|..]
        invariant dock.oilTrucks == pool[|offloaded|..]
        invariant forall t | t in pool :: t.container == SlotAfter(old(t.container), t, pool, offloaded)
        decreases |ship.freight.items|
      {
        ghost var i := |offloaded|;
        var next := ship.GetNext();
        if next.None? {
          assert f[..i] == f;
          return;
        }
        var c := next.value;
        assert c == f[i];
        if dock.oilTrucks == [] {
          // getOilTruck on an empty pool: the wait never ends
          stuck := Some(c);
          return;
        }
        var truck := dock.GetOilTruck();
        assert truck == pool[i];
        truck.SetContainer(c);
        forall t | t in pool
          ensures t.container == SlotAfter(old(t.container), t, pool, offloaded + [c])
        {
          SlotAfterAppend(old(t.container), t, pool, offloaded, c);
        }
        assert f[..i + 1] == f[..i] + [c];
        offloaded := offloaded + [c];
      }
    }

    /**
     * run, as written: the first getNext discards the ship's head, and the loop pumps the
     * rest.
     */
    method Run() returns (offloaded: seq<OilContainer>, stuck: Option<OilContainer>)
      requires dock.Valid() && ship.Valid()
      modifies ship`freight, dock`oilTrucks, dock.oilTrucks
      ensures dock.Valid() && ship.Valid()
      ensures Drained(PumpedAsWritten(old(ship.freight.items)), |old(dock.oilTrucks)|, offloaded, stuck, ship.freight.items)
      ensures dock.oilTrucks == old(dock.oilTrucks)[|offloaded|..]
      ensures forall t | t in old(dock.oilTrucks) ::
        t.container == SlotAfter(old(t.container), t, old(dock.oilTrucks), offloaded)
    {
      var discarded := ship.GetNext();
      offloaded, stuck := OffloadEach();
    }

    /** run with the discarding getNext removed: every container of the ship is pumped, while trucks last. */
    method RunCorrected() returns (offloaded: seq<OilContainer>, stuck: Option<OilContainer>)
      requires dock.Valid() && ship.Valid()
      modifies ship`freight, dock`oilTrucks, dock.oilTrucks
      ensures dock.Valid() && ship.Valid()
      ensures Drained(old(ship.freight.items), |old(dock.oilTrucks)|, offloaded, stuck, ship.freight.items)
      ensures dock.oilTrucks == old(dock.oilTrucks)[|offloaded|..]
      ensures forall t | t in old(dock.oilTrucks) ::
        t.container == SlotAfter(old(t.container), t, old(dock.oilTrucks), offloaded)
    {
      offloaded, stuck := OffloadEach();
    }
  }
}
