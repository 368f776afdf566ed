/**
 * Crane: takes containers off a container ship, head first, and hands each to the
 * offload strategy for its kind. The default and heated strategies place the container
 * on the dock and ignore whether the dock took it. The cooled strategy is not part of
 * this model: `cooledPlaces` says whether it places its container the same way, and
 * every contract here holds for both answers.
 */
module Cranes {
  import opened Wrappers
  import opened Containers
  import opened Ships
  import opened ShipKinds
  import opened Docking
  import opened OilTrucks

  /** How many containers at the head of the queue are of a kind the crane recognises. */
  function ListedPrefix(f: seq<FreightContainer>): (k: nat)
    ensures k <= |f|
    ensures forall i :: 0 <= i < k ==> IsListed(f[i].kind)
    ensures k < |f| ==> !IsListed(f[k].kind)
  {
    if f == [] || !IsListed(f[0].kind) then 0 else 1 + ListedPrefix(f[1..])
  }

  /** The strategies that end by placing the container on the dock. */
  predicate PlacedByStrategy(k: FreightKind, cooledPlaces: bool) {
    k.Default? || k.Heated? || (k.Cooled? && cooledPlaces)
  }

  /**
   * The backlog after the strategy for `c` has run: placeContainer adds `c` when the
   * strategy places it and there is room, and otherwise the backlog stays as it was.
   */
  function AfterStrategy(b: multiset<FreightContainer>, capacity: int, c: FreightContainer, cooledPlaces: bool): (r: multiset<FreightContainer>)
    ensures r == b || r == b + multiset{c}
    ensures r == b + multiset{c} <==> PlacedByStrategy(c.kind, cooledPlaces) && |b| < capacity
    ensures |b| <= capacity ==> |r| <= capacity
  {
    if PlacedByStrategy(c.kind, cooledPlaces) && |b| < capacity then b + multiset{c} else b
  }

  /** The backlog after the strategies for `dispatched` have run in turn, starting from `b`. */
  function PlacedOnDock(b: multiset<FreightContainer>, capacity: int, dispatched: seq<FreightContainer>, cooledPlaces: bool): (r: multiset<FreightContainer>)
    ensures |b| <= capacity ==> |r| <= capacity
    decreases |dispatched|
  {
    if dispatched == [] then b
    else
      assert dispatched == [dispatched[0]] + dispatched[1..];
      PlacedOnDock(AfterStrategy(b, capacity, dispatched[0], cooledPlaces), capacity, dispatched[1..], cooledPlaces)
  }

  /** The backlog only grows, and only by dispatched containers. */
  lemma {:induction false} PlacedOnDockBounds(b: multiset<FreightContainer>, capacity: int, dispatched: seq<FreightContainer>, cooledPlaces: bool)
    ensures b <= PlacedOnDock(b, capacity, dispatched, cooledPlaces) <= b + multiset(dispatched)
    decreases |dispatched|
  {
    if dispatched != [] {
      var c := dispatched[0];
      assert dispatched == [c] + dispatched[1..];
      var b' := AfterStrategy(b, capacity, c, cooledPlaces);
      PlacedOnDockBounds(b', capacity, dispatched[1..], cooledPlaces);
      assert b' <= b + multiset{c};
    }
  }

  /** The dispatched containers whose strategy places them on the dock, in dispatch order. */
  function Placed(dispatched: seq<FreightContainer>, cooledPlaces: bool): (r: seq<FreightContainer>)
    ensures |r| <= |dispatched|
    ensures forall i :: 0 <= i < |r| ==> PlacedByStrategy(r[i].kind, cooledPlaces)
    ensures multiset(r) <= multiset(dispatched)
    ensures (forall i :: 0 <= i < |dispatched| ==> PlacedByStrategy(dispatched[i].kind, cooledPlaces)) ==> r == dispatched
    ensures (forall i :: 0 <= i < |dispatched| ==> !PlacedByStrategy(dispatched[i].kind, cooledPlaces)) ==> r == []
  {
    if dispatched == [] then []
    else
      assert dispatched == [dispatched[0]] + dispatched[1..];
      var rest := Placed(dispatched[1..], cooledPlaces);
      if PlacedByStrategy(dispatched[0].kind, cooledPlaces) then [dispatched[0]] + rest else rest
  }

  /**
   * With room for all of them, exactly the containers whose strategy places them reach the
   * backlog: all default and heated ones, and the cooled ones when the cooled strategy
   * places them.
   */
  lemma {:induction false} PlacedOnDockWhenRoom(b: multiset<FreightContainer>, capacity: int, dispatched: seq<FreightContainer>, cooledPlaces: bool)
    requires |b| + |dispatched| <= capacity
    ensures PlacedOnDock(b, capacity, dispatched, cooledPlaces) == b + multiset(Placed(dispatched, cooledPlaces))
    decreases |dispatched|
  {
    if dispatched != [] {
      var c := dispatched[0];
      assert dispatched == [c] + dispatched[1..];
      var b' := AfterStrategy(b, capacity, c, cooledPlaces);
      assert |b'| <= |b| + 1;
      PlacedOnDockWhenRoom(b', capacity, dispatched[1..], cooledPlaces);
      if PlacedByStrategy(c.kind, cooledPlaces) {
        assert b' == b + multiset{c};
        assert multiset(Placed(dispatched, cooledPlaces)) == multiset{c} + multiset(Placed(dispatched[1..], cooledPlaces));
      }
    }
  }

  /**
   * A default and a cooled container dispatched to an empty dock with room for both: the
   * default one is placed, and the cooled one only if the cooled strategy places it.
   */
  lemma DefaultPlacedBesideCooled(d: ContainerId, c: ContainerId)
    ensures PlacedOnDock(multiset{}, 5, [FreightContainer(d, Default), FreightContainer(c, Cooled)], false) ==
      multiset{FreightContainer(d, Default)}
    ensures PlacedOnDock(multiset{}, 5, [FreightContainer(d, Default), FreightContainer(c, Cooled)], true) ==
      multiset{FreightContainer(d, Default), FreightContainer(c, Cooled)}
  {
    var dc, cc := FreightContainer(d, Default), FreightContainer(c, Cooled);
    var ds := [dc, cc];
    assert ds[1..] == [cc];
    assert Placed([cc], false) == [];
    assert Placed(ds, false) == [dc];
    PlacedOnDockWhenRoom(multiset{}, 5, ds, false);
    assert multiset([dc]) == multiset{dc};
    assert Placed(ds, true) == ds;
    PlacedOnDockWhenRoom(multiset{}, 5, ds, true);
    assert multiset(ds) == multiset{dc, cc};
  }

  /** Placing one more container after the others is one more strategy step. */
  lemma {:induction false} PlacedOnDockAppend(b: multiset<FreightContainer>, capacity: int, dispatched: seq<FreightContainer>, c: FreightContainer, cooledPlaces: bool)
    ensures PlacedOnDock(b, capacity, dispatched + [c], cooledPlaces) ==
      AfterStrategy(PlacedOnDock(b, capacity, dispatched, cooledPlaces), capacity, c, cooledPlaces)
    decreases |dispatched|
  {
    if dispatched == [] {
      assert dispatched + [c] == [c];
    } else {
      var d := dispatched[0];
      assert (dispatched + [c])[0] == d && (dispatched + [c])[1..] == dispatched[1..] + [c];
      PlacedOnDockAppend(AfterStrategy(b, capacity, d, cooledPlaces), capacity, dispatched[1..], c, cooledPlaces);
    }
  }

  /** Without a cooled container among the dispatched, the cooled strategy makes no difference. */
  lemma {:induction false} PlacedOnDockWithoutCooled(b: multiset<FreightContainer>, capacity: int, dispatched: seq<FreightContainer>)
    requires forall i :: 0 <= i < |dispatched| ==> !dispatched[i].kind.Cooled?
    ensures PlacedOnDock(b, capacity, dispatched, true) == PlacedOnDock(b, capacity, dispatched, false)
    decreases |dispatched|
  {
    if dispatched != [] {
      var c := dispatched[0];
      assert AfterStrategy(b, capacity, c, true) == AfterStrategy(b, capacity, c, false);
      PlacedOnDockWithoutCooled(AfterStrategy(b, capacity, c, true), capacity, dispatched[1..]);
    }
  }

  class Crane {
    const dock: Dock<OilTruck>
    const ship: ContainerShip

    constructor (dock: Dock<OilTruck>, ship: ContainerShip)
      ensures this.dock == dock && this.ship == ship
    {
      this.dock := dock;
      this.ship := ship;
    }

    /**
     * The offload strategy for the kind of `c`: the default and heated strategies place
     * `c` on the dock, whether or not it is taken, and the cooled one does so when
     * `cooledPlaces` holds.
     */
    method Offload(c: FreightContainer, cooledPlaces: bool)
      requires dock.Valid()
      modifies dock`backlog
      ensures dock.Valid()
      ensures dock.backlog == AfterStrategy(old(dock.backlog), dock.containerCapacity, c, cooledPlaces)
    {
      if PlacedByStrategy(c.kind, cooledPlaces) {
        var placed := dock.PlaceContainer(c);
      }
    }

    /**
     * run: dispatch the head containers in order until the ship yields null or a kind
     * the crane does not recognise; that one has left the ship but is not dispatched.
     * On null the pattern switch, which has no `case null`, throws instead of returning;
     * the normal return here stands for that exception, and the state left is the same.
     * `cooledPlaces` stands for what the cooled offload strategy does with the dock.
     */
    method Run(cooledPlaces: bool) returns (dispatched: seq<FreightContainer>)
      requires dock.Valid() && ship.Valid()
      modifies ship`freight, dock`backlog
      ensures dock.Valid() && ship.Valid() && ship.freight.bound == old(ship.freight.bound)
      ensures var f := old(ship.freight.items); var k := ListedPrefix(f);
        dispatched == f[..k] &&
        ship.freight.items == f[if k < |f| then k + 1 else k..]
      ensures dock.backlog == PlacedOnDock(old(dock.backlog), dock.containerCapacity, dispatched, cooledPlaces)
    {
      ghost var f := ship.freight.items;
      ghost var k := ListedPrefix(f);
      dispatched := [];
      while true
        invariant dock.Valid() && ship.Valid() && ship.freight.bound == old(ship.freight.bound)
        invariant |dispatched| <= k
        invariant dispatched == f[..|dispatched|]
        invariant ship.freight.items == f[|dispatched|..]
        invariant dock.backlog == PlacedOnDock(old(dock.backlog), dock.containerCapacity, dispatched, cooledPlaces)
        decreases |ship.freight.items|
      {
        ghost var i := |dispatched|;
        var next := ship.GetNext();
        if next.None? {
          assert i == |f| == k;
          return;
        }
        var c := next.value;
        assert c == f[i];
        if !IsListed(c.kind) {
          assert i == k;
          return;
        }
        assert i < k;
        PlacedOnDockAppend(old(dock.backlog), dock.containerCapacity, dispatched, c, cooledPlaces);
        Offload(c, cooledPlaces);
        assert f[..i + 1] == f[..i] + [c];
        assert f[i..][1..] == f[i + 1..];
        dispatched := dispatched + [c];
      }
    }
  }
}
