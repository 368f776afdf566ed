/**
 * ShipBuilderFacade: builds complete ships through the two builders, with a default
 * capacity for the default builds. The builders are the facade's collaborators (the
 * program reaches them as singletons).
 */
module Facade {
  import opened Wrappers
  import opened Containers
  import opened Ships
  import opened ShipKinds
  import opened OilShipBuilders
  import opened ContainerShipBuilders

  const InitialDefaultCapacity := 100

  class ShipBuilderFacade {
    var defaultCapacity: int
    const oilShipBuilder: OilShipBuilder
    const containerShipBuilder: ContainerShipBuilder

    constructor (oilShipBuilder: OilShipBuilder, containerShipBuilder: ContainerShipBuilder)
      ensures defaultCapacity == InitialDefaultCapacity
      ensures this.oilShipBuilder == oilShipBuilder && this.containerShipBuilder == containerShipBuilder
    {
      defaultCapacity := InitialDefaultCapacity;
      this.oilShipBuilder := oilShipBuilder;
      this.containerShipBuilder := containerShipBuilder;
    }

    /**
     * buildOilShip(identifier, capacity): reset, set identifier and capacity, fill on build.
     * A capacity <= 0 throws in setCapacity, before fillOnBuild is set. Otherwise the ship
     * is new, carries the identifier, and holds exactly `capacity` new oil containers.
     */
    method BuildOilShip(identifier: string, capacity: int, ids: seq<ContainerId>) returns (r: Result<OilShip>)
      requires capacity >= 1 ==> |ids| >= capacity
      modifies oilShipBuilder
      ensures oilShipBuilder.Valid() && fresh(oilShipBuilder.ship)
      ensures capacity <= 0 ==> r == Err(NonPositiveCapacity) && oilShipBuilder.fillOnBuild == old(oilShipBuilder.fillOnBuild)
      ensures capacity >= 1 ==>
        r == Ok(oilShipBuilder.ship) && oilShipBuilder.fillOnBuild &&
        r.value.identifier == Some(identifier) && r.value.capacity == capacity &&
        r.value.freight == Queue(NewOilContainers(ids[..capacity]), capacity)
    {
      oilShipBuilder.Reset();
      oilShipBuilder.SetIdentifier(identifier);
      var resized := oilShipBuilder.SetCapacity(capacity);
      if resized.Fail? {
        return Err(resized.error);
      }
      oilShipBuilder.SetFillOnBuild(true);
      var ship := oilShipBuilder.Build(ids);
      return Ok(ship);
    }

    /**
     * buildContainerShip(identifier, capacity): the same steps through the container ship
     * builder, so nothing carries over from an earlier build; the ship holds exactly
     * `capacity` containers, of the kinds the draws select.
     */
    method BuildContainerShip(identifier: string, capacity: int, ids: seq<ContainerId>, choices: seq<nat>)
      returns (r: Result<ContainerShip>)
      requires capacity >= 1 ==> |ids| >= capacity && |choices| >= capacity && ValidChoices(choices[..capacity])
      modifies containerShipBuilder
      ensures containerShipBuilder.Valid() && fresh(containerShipBuilder.ship)
      ensures capacity <= 0 ==>
        r == Err(NonPositiveCapacity) && containerShipBuilder.fillOnBuild == old(containerShipBuilder.fillOnBuild)
      ensures capacity >= 1 ==>
        r == Ok(containerShipBuilder.ship) && containerShipBuilder.fillOnBuild &&
        r.value.identifier == Some(identifier) && r.value.capacity == capacity &&
        r.value.freight == Queue(NewFreight(ids[..capacity], choices[..capacity]), capacity)
    {
      containerShipBuilder.Reset();
      containerShipBuilder.SetIdentifier(identifier);
      var resized := containerShipBuilder.SetCapacity(capacity);
      if resized.Fail? {
        return Err(resized.error);
      }
      containerShipBuilder.SetFillOnBuild(true);
      var ship := containerShipBuilder.Build(ids, choices);
      assert NewFreight(ids[..capacity], choices[..capacity])[..capacity] == NewFreight(ids[..capacity], choices[..capacity]);
      return Ok(ship);
    }

    /** buildDefaultOilShip: buildOilShip with the current default capacity. */
    method BuildDefaultOilShip(identifier: string, ids: seq<ContainerId>) returns (r: Result<OilShip>)
      requires defaultCapacity >= 1 ==> |ids| >= defaultCapacity
      modifies oilShipBuilder
      ensures oilShipBuilder.Valid() && fresh(oilShipBuilder.ship)
      ensures defaultCapacity <= 0 ==> r == Err(NonPositiveCapacity)
      ensures defaultCapacity >= 1 ==>
        r == Ok(oilShipBuilder.ship) &&
        r.value.identifier == Some(identifier) && r.value.capacity == defaultCapacity &&
        r.value.freight == Queue(NewOilContainers(ids[..defaultCapacity]), defaultCapacity)
    {
      r := BuildOilShip(identifier, defaultCapacity, ids);
    }

    /** buildDefaultContainerShip: buildContainerShip with the current default capacity. */
    method BuildDefaultContainerShip(identifier: string, ids: seq<ContainerId>, choices: seq<nat>)
      returns (r: Result<ContainerShip>)
      requires defaultCapacity >= 1 ==>
        |ids| >= defaultCapacity && |choices| >= defaultCapacity && ValidChoices(choices[..defaultCapacity])
      modifies containerShipBuilder
      ensures containerShipBuilder.Valid() && fresh(containerShipBuilder.ship)
      ensures defaultCapacity <= 0 ==> r == Err(NonPositiveCapacity)
      ensures defaultCapacity >= 1 ==>
        r == Ok(containerShipBuilder.ship) &&
        r.value.identifier == Some(identifier) && r.value.capacity == defaultCapacity &&
        r.value.freight == Queue(NewFreight(ids[..defaultCapacity], choices[..defaultCapacity]), defaultCapacity)
    {
      r := BuildContainerShip(identifier, defaultCapacity, ids, choices);
    }

    method SetDefaultCapacity(defaultCapacity: int)
      modifies this`defaultCapacity
      ensures this.defaultCapacity == defaultCapacity
    {
      this.defaultCapacity := defaultCapacity;
    }
  }
}
