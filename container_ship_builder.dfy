/** ContainerShipBuilder: builds a ContainerShip and, on request, fills it with freight of random kinds. */
module ContainerShipBuilders {
  import opened Wrappers
  import opened Containers
  import opened Ships
  import opened ShipKinds

  /** The kind a draw of nextInt(3) selects. */
  function ChosenKind(choice: nat): (k: FreightKind)
    requires choice < 3
    ensures IsListed(k)
  {
    if choice == 0 then Default else if choice == 1 then Heated else Cooled
  }

  predicate ValidChoices(choices: seq<nat>) {
    forall i :: 0 <= i < |choices| ==> choices[i] < 3
  }

  /** New freight containers, pairing each identity with the kind its draw selects. */
  function NewFreight(ids: seq<ContainerId>, choices: seq<nat>): (r: seq<FreightContainer>)
    requires |ids| == |choices| && ValidChoices(choices)
    ensures |r| == |ids|
    ensures forall i :: 0 <= i < |ids| ==> r[i] == FreightContainer(ids[i], ChosenKind(choices[i]))
  {
    if ids == [] then [] else [FreightContainer(ids[0], ChosenKind(choices[0]))] + NewFreight(ids[1..], choices[1..])
  }

  function Min(a: int, b: int): int {
    if a <= b then a else b
  }

  class ContainerShipBuilder {
    var ship: ContainerShip
    var fillOnBuild: bool

    ghost predicate Valid()
      reads this, ship
    {
      ship.Valid()
    }

    /** The private constructor (the singleton around it is not modelled). */
    constructor ()
      ensures Valid() && fresh(ship) && !fillOnBuild
      ensures ship.identifier == None && ship.capacity == 1 && ship.freight == Queue([], 1)
    {
      ship := new Ship(None, 1);
      fillOnBuild := false;
    }

    method SetFillOnBuild(fillOnBuild: bool)
      modifies this`fillOnBuild
      ensures this.fillOnBuild == fillOnBuild
    {
      this.fillOnBuild := fillOnBuild;
    }

    method SetIdentifier(identifier: string)
      modifies ship`identifier
      ensures ship.identifier == Some(identifier)
    {
      ship.SetIdentifier(identifier);
    }

    method SetQueue(queue: Queue<FreightContainer>)
      requires Valid() && queue.Valid()
      modifies ship`freight
      ensures Valid() && ship.freight == queue
    {
      ship.SetFreightQueue(queue);
    }

    /** setCapacity: the ship's own setCapacity, whose exceptions pass through. */
    method SetCapacity(capacity: int) returns (r: Outcome)
      requires Valid()
      modifies ship`freight, ship`capacity
      ensures Valid()
      ensures (ship.freight, ship.capacity, r) == Resized(old(ship.freight), old(ship.capacity), capacity)
    {
      r := ship.SetCapacity(capacity);
    }

    /**
     * build: when filling, exactly `capacity` containers are made and offered, each of the
     * kind its draw selects; offers past the queue's bound are refused and change nothing.
     * `ids` and `choices` stand for the identities and the random draws.
     */
    method Build(ids: seq<ContainerId>, choices: seq<nat>) returns (s: ContainerShip)
      requires Valid()
      requires FillsOnBuild(fillOnBuild, ship.freight, ship.capacity) ==>
        |ids| >= ship.capacity && |choices| >= ship.capacity && ValidChoices(choices[..ship.capacity])
      modifies ship`freight
      ensures Valid() && s == ship
      ensures ship.freight.bound == old(ship.freight.bound)
      ensures !FillsOnBuild(fillOnBuild, old(ship.freight), ship.capacity) ==> ship.freight == old(ship.freight)
      ensures FillsOnBuild(fillOnBuild, old(ship.freight), ship.capacity) ==>
        var accepted := Min(ship.capacity, old(ship.freight.RemainingCapacity()));
        ship.freight.items == old(ship.freight.items) +
          NewFreight(ids[..ship.capacity], choices[..ship.capacity])[..accepted]
    {
      if FillsOnBuild(fillOnBuild, ship.freight, ship.capacity) {
        ghost var start := ship.freight.items;
        ghost var made := NewFreight(ids[..ship.capacity], choices[..ship.capacity]);
        for index := 0 to ship.capacity
          invariant ship.Valid() && ship.freight.bound == old(ship.freight.bound)
          invariant ship.freight.items == start + made[..Min(index, ship.freight.bound - |start|)]
        {
          assert choices[..ship.capacity][index] == choices[index];
          var added := ship.AddFreight(FreightContainer(ids[index], ChosenKind(choices[index])));
          assert made[..index + 1] == made[..index] + [made[index]];
        }
      }
      s := ship;
    }

    /** reset: a fresh ContainerShip replaces the one under construction; fillOnBuild stays. */
    method Reset()
      modifies this`ship
      ensures Valid() && fresh(ship) && fillOnBuild == old(fillOnBuild)
      ensures ship.identifier == None && ship.capacity == 1 && ship.freight == Queue([], 1)
    {
      ship := NewContainerShip();
    }
  }
}
