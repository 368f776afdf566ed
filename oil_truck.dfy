/**
 * OilTruck: a single-slot mailbox for one oil container. A pump fills the slot; the truck
 * delivers what it holds, empties the slot and registers itself with the dock again.
 */
module OilTrucks {
  import opened Wrappers
  import opened Containers
  import opened Docking

  class OilTruck {
    const dock: Dock<OilTruck>
    /** The loaded container; None while the slot is empty. */
    var container: Option<OilContainer>

    /** OilTruck(dock, identifier): an empty slot, registered once in the dock's pool. */
    constructor (dock: Dock<OilTruck>)
      requires dock.Valid() && |dock.oilTrucks| < OilTruckPoolCapacity
      modifies dock
      ensures this.dock == dock && container == None
      ensures dock.Valid()
      ensures dock.oilTrucks == old(dock.oilTrucks) + [this]
      ensures dock.backlog == old(dock.backlog)
    {
      this.dock := dock;
      container := None;
      new;
      var registered := dock.RegisterOilTruck(this);
    }

    /**
     * setContainer: an empty slot takes the container. On a full slot the wait for it to
     * empty times out (nobody else empties it) and the stored container stays.
     */
    method SetContainer(c: OilContainer)
      modifies this`container
      ensures container == if old(container) == None then Some(c) else old(container)
    {
      if container != None {
        return;
      }
      container := Some(c);
    }

    /**
     * run: each round waits for the slot to fill, delivers the container, empties the slot
     * and registers the truck again. Run on its own, the slot is never refilled after a
     * delivery, so the next wait times out and the truck stops: it delivers what it held,
     * if anything, exactly once.
     */
    method Run() returns (delivered: seq<OilContainer>)
      requires dock.Valid()
      requires container.Some? ==> |dock.oilTrucks| < OilTruckPoolCapacity
      modifies this`container, dock`oilTrucks
      ensures dock.Valid() && container == None
      ensures old(container) == None ==> delivered == [] && dock.oilTrucks == old(dock.oilTrucks)
      ensures old(container).Some? ==>
        delivered == [old(container).value] && dock.oilTrucks == old(dock.oilTrucks) + [this]
    {
      delivered := [];
      while true
        invariant dock.Valid()
        invariant old(container) == None ==> delivered == [] && container == None && dock.oilTrucks == old(dock.oilTrucks)
        invariant old(container).Some? ==>
          (delivered == [] && container == old(container) && dock.oilTrucks == old(dock.oilTrucks)) ||
          (delivered == [old(container).value] && container == None && dock.oilTrucks == old(dock.oilTrucks) + [this])
        decreases if container.Some? then 1 else 0
      {
        if container == None {
          // the 30-second wait for the slot to fill times out
          return;
        }
        // OilTransportStrategy.execute: the delivery itself is only logging and a delay
        delivered := delivered + [container.value];
        container := None;
        var registered := dock.RegisterOilTruck(this);
      }
    }
  }
}
