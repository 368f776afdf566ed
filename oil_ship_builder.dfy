/** OilShipBuilder: builds an OilShip step by step and, on request, fills it with oil. */
module OilShipBuilders {
  import opened Wrappers
  import opened Containers
  import opened Ships
  import opened ShipKinds

  /** New oil containers, one per identity, in order. */
  function NewOilContainers(ids: seq<ContainerId>): (r: seq<OilContainer>)
    ensures |r| == |ids|
    ensures forall i :: 0 <= i < |ids| ==> r[i] == OilContainer(ids[i])
  {
    if ids == [] then [] else [OilContainer(ids[0])] + NewOilContainers(ids[1..])
  }

  class OilShipBuilder {
    var ship: OilShip
    var fillOnBuild: bool

    ghost predicate Valid()
      reads this, ship
    {
      ship.Valid()
    }

    /** The private constructor (the singleton around it is not modelled). */
    constructor ()
      ensures Valid() && fresh(ship) && !fillOnBuild
      ensures ship.identifier == None && ship.capacity == 1 && ship.freight == Queue([], 1)
    {
      ship := new Ship(None, 1);
      fillOnBuild := false;
    }

    method SetFillOnBuild(fillOnBuild: bool)
      modifies this`fillOnBuild
      ensures this.fillOnBuild == fillOnBuild
    {
      this.fillOnBuild := fillOnBuild;
    }

    method SetIdentifier(identifier: string)
      modifies ship`identifier
      ensures ship.identifier == Some(identifier)
    {
      ship.SetIdentifier(identifier);
    }

    method SetQueue(queue: Queue<OilContainer>)
      requires Valid() && queue.Valid()
      modifies ship`freight
      ensures Valid() && ship.freight == queue
    {
      ship.SetFreightQueue(queue);
    }

    /** setCapacity: the ship's own setCapacity, whose exceptions pass through. */
    method SetCapacity(capacity: int) returns (r: Outcome)
      requires Valid()
      modifies ship`freight, ship`capacity
      ensures Valid()
      ensures (ship.freight, ship.capacity, r) == Resized(old(ship.freight), old(ship.capacity), capacity)
    {
      r := ship.SetCapacity(capacity);
    }

    /**
     * build: when filling, new oil containers are offered until the queue has no
     * remaining capacity. The queue's own bound decides, so a ship whose capacity was
     * shrunk is filled past its recorded capacity. `ids` are the identities the new
     * containers receive.
     */
    method Build(ids: seq<ContainerId>) returns (s: OilShip)
      requires Valid()
      requires FillsOnBuild(fillOnBuild, ship.freight, ship.capacity) ==> |ids| >= ship.freight.RemainingCapacity()
      modifies ship`freight
      ensures Valid() && s == ship
      ensures ship.freight.bound == old(ship.freight.bound)
      ensures !FillsOnBuild(fillOnBuild, old(ship.freight), ship.capacity) ==> ship.freight == old(ship.freight)
      ensures FillsOnBuild(fillOnBuild, old(ship.freight), ship.capacity) ==>
        ship.freight.items == old(ship.freight.items) + NewOilContainers(ids[..old(ship.freight.RemainingCapacity())]) &&
        ship.freight.RemainingCapacity() == 0
    {
      // the null check on the queue: a ship here always has one
      if FillsOnBuild(fillOnBuild, ship.freight, ship.capacity) {
        ghost var start := ship.freight.items;
        ghost var room := ship.freight.RemainingCapacity();
        var i := 0;
        while ship.freight.RemainingCapacity() > 0
          invariant ship.Valid() && ship.freight.bound == old(ship.freight.bound)
          invariant 0 <= i <= room
          invariant ship.freight.items == start + NewOilContainers(ids[..i])
          invariant ship.freight.RemainingCapacity() == room - i
          decreases ship.freight.RemainingCapacity()
        {
          var added := ship.AddFreight(OilContainer(ids[i]));
          assert ids[..i + 1] == ids[..i] + [ids[i]];
          i := i + 1;
        }
      }
      s := ship;
    }

    /** reset: a fresh OilShip replaces the one under construction; fillOnBuild stays. */
    method Reset()
      modifies this`ship
      ensures Valid() && fresh(ship) && fillOnBuild == old(fillOnBuild)
      ensures ship.identifier == None && ship.capacity == 1 && ship.freight == Queue([], 1)
    {
      ship := NewOilShip();
    }
  }
}
