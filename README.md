# Dock simulation: a verified sequential model

A Dafny model of a dock simulation. Ships arrive with freight queues. A crane moves
freight containers from a container ship into the dock's bounded backlog. Container trucks
take them out again, least-ranked first. A pump moves oil containers from an oil ship into
oil trucks. The trucks wait in a first-in, first-out pool of at most three on the dock, and
each truck holds one container at a time. Builders and a facade make the ships and can fill
them with new containers.

The program drives its actors one after another on one thread. The model is therefore
sequential. A timed wait (the dock's thirty-second waits, the truck's seven- and
thirty-second waits) is modelled as a wait that times out, because no other actor can act
in the meantime. A wait with no timeout, such as taking a truck from an empty pool or
registering one into a full pool, would never return. Such a wait becomes a precondition,
or, in the pump, the `stuck` outcome.

Modules, one per source class or group:

- `Wrappers`: `Option`, and the multiset view of an `Option`.
- `Containers`: freight containers (default, heated, cooled, or any other kind), oil
  containers, and `DefaultFreightContainer.compareTo`.
- `Ships`: `AbstractShip` as the class `Ship<T>`. Its state is the freight queue (the
  items, head first, and the bound the `ArrayBlockingQueue` was created with) plus the
  capacity the ship records. Value-level functions (`OfferEach`, `Withdrawn`, `FreightSet`,
  `Resized`) specify the methods.
- `ShipKinds`: `ContainerShip` and `OilShip`, their fresh state and their `equals`.
- `Docking`: the `Dock` class, with the backlog as a multiset ordered by a rank function, and
  the truck pool as a sequence.
- `OilTrucks`: the `OilTruck` class and its single slot.
- `OilShipBuilders`, `ContainerShipBuilders`, `Facade`: the builders and `ShipBuilderFacade`.
- `Cranes`, `Pumps`, `ContainerTrucks`: the `run` loops of the three dock actors.

The backlog's order comes from `compareTo`. Only `DefaultFreightContainer.compareTo` is part
of this model, so the dock takes the order as a rank function fixed at construction.
`getContainer` returns some container that no other waiting container ranks strictly
below. Ties are not broken in any particular way, because a `PriorityBlockingQueue` is not
stable. Where a lemma needs the default container's comparison, it assumes a rank that
agrees with it (`RankAgreesWithDefault`), and `SomeRankAgreesWithDefault` shows that such a
rank exists.

## Model

| member | source | states |
|---|---|---|
| Containers.DefaultCompareTo | src/main/java/com/github/marcustalbots/haven/impl/containers/DefaultFreightContainer.java:30-33 | the result is 0 or 1, and it is 0 exactly when the argument is a default container |
| Containers.CompareToDependsOnlyOnKind | src/main/java/com/github/marcustalbots/haven/impl/containers/DefaultFreightContainer.java:31-33 | two comparisons whose arguments have the same kind give the same result, whatever the identities of the containers |
| Containers.SomeRankAgreesWithDefault | src/main/java/com/github/marcustalbots/haven/impl/containers/DefaultFreightContainer.java:31-33 | a rank that agrees with compareTo exists (default containers level with each other, above all other kinds), so lemmas that assume one are not vacuous |
| Ships.OfferEach | src/main/java/com/github/marcustalbots/haven/models/vehicles/ships/AbstractShip.java:71-74 | the containers are offered in the order given, and the first refusal stops the offers; the accepted ones are a prefix of the argument and are appended at the tail; everything is accepted exactly when it fits in the queue's bound, and after a refusal the queue is full |
| Ships.Withdrawn | src/main/java/com/github/marcustalbots/haven/models/vehicles/ships/AbstractShip.java:70 | removeAll: every element that remains was queued and does not occur in the argument; every queued element that does not occur in the argument remains; when nothing queued occurs in the argument, the queue is returned as it is |
| Ships.WithdrawnAppend | src/main/java/com/github/marcustalbots/haven/models/vehicles/ships/AbstractShip.java:70 | withdrawing from two parts of a queue and joining the results equals withdrawing from the whole, so the remaining elements keep their order and their number, element by element |
| Ships.FreightSet | src/main/java/com/github/marcustalbots/haven/models/vehicles/ships/AbstractShip.java:65-75 | a collection larger than the recorded capacity throws, and nothing changes; otherwise the matching elements are removed, the other queued elements keep their place at the front, and a prefix of the collection follows them; the result is true exactly when the whole collection fitted, and then the whole collection is appended; a false result leaves the queue at its bound |
| Ships.Resized | src/main/java/com/github/marcustalbots/haven/models/vehicles/ships/AbstractShip.java:141-153 | setCapacity succeeds exactly when c > 0 and the queue holds at most c elements; on success the elements and their order are kept and the capacity becomes c; a shrink leaves the queue itself untouched, and a grow gives the queue the bound c; c <= 0 fails with NonPositiveCapacity and a shrink below occupancy with BelowOccupancy, both changing nothing; a grow below occupancy fails with QueueFull, leaving a queue bounded by c holding the first c elements, and the recorded capacity as it was |
| Ships.ShrunkShipAcceptsBeyondCapacity | src/main/java/com/github/marcustalbots/haven/models/vehicles/ships/AbstractShip.java:149-152 | a ship of capacity 2 shrunk to 1 records capacity 1 but still accepts two containers, because only the recorded number changes |
| Ships.GrowAfterOverfillLosesFreight | src/main/java/com/github/marcustalbots/haven/models/vehicles/ships/AbstractShip.java:144-148 | a queue holding three containers, grown to a capacity of two, throws during the drain and keeps only the first two |
| Ships.Ship.constructor | src/main/java/com/github/marcustalbots/haven/models/vehicles/ships/AbstractShip.java:51-55 | a new ship has an empty queue bounded by the capacity, and records that capacity |
| Ships.Ship.AddFreight | src/main/java/com/github/marcustalbots/haven/models/vehicles/ships/AbstractShip.java:95-97 | the container is appended at the tail, and the result is true, exactly when the queue was below its bound; otherwise the queue is unchanged |
| Ships.Ship.GetNext | src/main/java/com/github/marcustalbots/haven/models/vehicles/ships/AbstractShip.java:83-85 | returns and removes the head; on an empty queue it returns null and changes nothing |
| Ships.Ship.SetFreight | src/main/java/com/github/marcustalbots/haven/models/vehicles/ships/AbstractShip.java:65-75 | the new queue and the result are those of FreightSet |
| Ships.Ship.GetCapacity | src/main/java/com/github/marcustalbots/haven/models/vehicles/ships/AbstractShip.java:128-130 | returns the recorded capacity, which is at least 1 |
| Ships.Ship.SetCapacity | src/main/java/com/github/marcustalbots/haven/models/vehicles/ships/AbstractShip.java:141-153 | the new queue, the new capacity and the outcome are those of Resized |
| Ships.Ship.SetFreightQueue | src/main/java/com/github/marcustalbots/haven/models/vehicles/ships/AbstractShip.java:117-119 | installs the given queue; the recorded capacity stays |
| Ships.Ship.SetIdentifier | src/main/java/com/github/marcustalbots/haven/models/vehicles/AbstractVehicle.java:57-59 | the identifier becomes the given one |
| ShipKinds.NewContainerShip | src/main/java/com/github/marcustalbots/haven/impl/vehicles/ships/ContainerShip.java:23-25 | a new container ship has no identifier, capacity 1 and an empty queue bounded by 1 |
| ShipKinds.NewOilShip | src/main/java/com/github/marcustalbots/haven/impl/vehicles/ships/OilShip.java:23-25 | a new oil ship has no identifier, capacity 1 and an empty queue bounded by 1 |
| ShipKinds.SameShipIffSameElements | src/main/java/com/github/marcustalbots/haven/impl/vehicles/ships/ContainerShip.java:30-33 | the two containsAll checks and the identifier check together hold exactly when the identifiers are equal and the ships carry the same set of containers |
| ShipKinds.ContainerShipEquals | src/main/java/com/github/marcustalbots/haven/impl/vehicles/ships/ContainerShip.java:28-37 | ContainerShip.equals: holds only for a container ship with the same identifier (its full meaning is ContainerShipEqualsMeaning) |
| ShipKinds.OilShipEquals | src/main/java/com/github/marcustalbots/haven/impl/vehicles/ships/OilShip.java:28-37 | OilShip.equals: holds only for an oil ship with the same identifier (its full meaning is OilShipEqualsMeaning) |
| ShipKinds.ContainerShipEqualsMeaning | src/main/java/com/github/marcustalbots/haven/impl/vehicles/ships/ContainerShip.java:27-37 | a container ship equals an object exactly when the object is a container ship with the same identifier and the same containers aboard, whatever their order and number |
| ShipKinds.OilShipEqualsMeaning | src/main/java/com/github/marcustalbots/haven/impl/vehicles/ships/OilShip.java:27-37 | an oil ship equals an object exactly when the object is an oil ship with the same identifier and the same containers aboard |
| ShipKinds.ContainerShipEqualsReflexive | src/main/java/com/github/marcustalbots/haven/impl/vehicles/ships/ContainerShip.java:28-37 | every container ship equals itself |
| ShipKinds.ContainerShipEqualsSymmetric | src/main/java/com/github/marcustalbots/haven/impl/vehicles/ships/ContainerShip.java:28-37 | equality between container ships holds in one direction exactly when it holds in the other |
| ShipKinds.OilShipEqualsReflexive | src/main/java/com/github/marcustalbots/haven/impl/vehicles/ships/OilShip.java:28-37 | every oil ship equals itself |
| ShipKinds.OilShipEqualsSymmetric | src/main/java/com/github/marcustalbots/haven/impl/vehicles/ships/OilShip.java:28-37 | equality between oil ships holds in one direction exactly when it holds in the other |
| ShipKinds.ShipsOfDifferentKindsDiffer | src/main/java/com/github/marcustalbots/haven/impl/vehicles/ships/ContainerShip.java:29-36 | a container ship never equals an oil ship or any other object, and an oil ship never equals a container ship or any other object |
| Docking.LeastExists | src/main/java/com/github/marcustalbots/haven/dock/Dock.java:116 | a non-empty backlog always holds a container that no other container ranks strictly below, so getContainer can always return one |
| Docking.TakenInOrderExtend | src/main/java/com/github/marcustalbots/haven/dock/Dock.java:116 | taking a least container from those still waiting extends a possible order of takes |
| Docking.TakenInOrderAscends | src/main/java/com/github/marcustalbots/haven/dock/Dock.java:116 | containers taken one after another leave the backlog in non-decreasing rank |
| Docking.DefaultLeavesLast | src/main/java/com/github/marcustalbots/haven/impl/containers/DefaultFreightContainer.java:32 | under a rank that agrees with compareTo, a default container is taken only from a backlog that holds nothing but default containers |
| Docking.DefaultsLeaveLast | src/main/java/com/github/marcustalbots/haven/impl/containers/DefaultFreightContainer.java:32 | under such a rank, once a default container has been taken, every later take is a default container |
| Docking.Dock.constructor | src/main/java/com/github/marcustalbots/haven/dock/Dock.java:62-76 | a new dock has the given capacity, an empty backlog and an empty truck pool |
| Docking.Dock.PlaceContainer | src/main/java/com/github/marcustalbots/haven/dock/Dock.java:85-103 | on a full backlog the wait times out, the result is false and the backlog is unchanged; otherwise exactly that container is added and the result is true; the backlog never exceeds the capacity |
| Docking.Dock.GetContainer | src/main/java/com/github/marcustalbots/haven/dock/Dock.java:114-126 | on an empty backlog the result is null and nothing changes; otherwise one least container is removed and returned, and every other container stays |
| Docking.Dock.RegisterOilTruck | src/main/java/com/github/marcustalbots/haven/dock/Dock.java:134-143 | the truck is appended at the tail of the pool, which holds at most three trucks |
| Docking.Dock.GetOilTruck | src/main/java/com/github/marcustalbots/haven/dock/Dock.java:151-159 | the earliest registered truck is removed and returned |
| OilTrucks.OilTruck.constructor | src/main/java/com/github/marcustalbots/haven/impl/vehicles/dock_vehicles/transport_vehicles/OilTruck.java:54-67 | a new truck has an empty slot and is registered exactly once, at the tail of the dock's pool; the backlog is untouched |
| OilTrucks.OilTruck.SetContainer | src/main/java/com/github/marcustalbots/haven/impl/vehicles/dock_vehicles/transport_vehicles/OilTruck.java:105-121 | an empty slot takes the container; a full slot keeps the container it holds |
| OilTrucks.OilTruck.Run | src/main/java/com/github/marcustalbots/haven/impl/vehicles/dock_vehicles/transport_vehicles/OilTruck.java:74-96 | a loaded truck delivers its container exactly once, empties its slot and registers itself again; an empty truck delivers nothing and leaves the pool as it is; in both cases run ends with an empty slot |
| OilShipBuilders.NewOilContainers | src/main/java/com/github/marcustalbots/haven/builders/ship/OilShipBuilder.java:119 | one new oil container per identity, in order |
| OilShipBuilders.OilShipBuilder.constructor | src/main/java/com/github/marcustalbots/haven/builders/ship/OilShipBuilder.java:37-39 | the builder starts with a fresh oil ship, and fillOnBuild is off |
| OilShipBuilders.OilShipBuilder.SetFillOnBuild | src/main/java/com/github/marcustalbots/haven/builders/ship/OilShipBuilder.java:63-67 | sets fillOnBuild |
| OilShipBuilders.OilShipBuilder.SetIdentifier | src/main/java/com/github/marcustalbots/haven/builders/ship/OilShipBuilder.java:74-78 | sets the ship's identifier |
| OilShipBuilders.OilShipBuilder.SetQueue | src/main/java/com/github/marcustalbots/haven/builders/ship/OilShipBuilder.java:85-89 | installs the given queue on the ship |
| OilShipBuilders.OilShipBuilder.SetCapacity | src/main/java/com/github/marcustalbots/haven/builders/ship/OilShipBuilder.java:96-100 | delegates to the ship's setCapacity, exceptions included |
| OilShipBuilders.OilShipBuilder.Build | src/main/java/com/github/marcustalbots/haven/builders/ship/OilShipBuilder.java:107-124 | with fillOnBuild set and the ship below its recorded capacity, new oil containers are appended after the existing ones until the queue has no remaining capacity; otherwise the queue is untouched |
| OilShipBuilders.OilShipBuilder.Reset | src/main/java/com/github/marcustalbots/haven/builders/ship/OilShipBuilder.java:131-136 | a fresh oil ship replaces the one under construction, and fillOnBuild keeps its value |
| ContainerShipBuilders.ChosenKind | src/main/java/com/github/marcustalbots/haven/builders/ship/ContainerShipBuilder.java:117-121 | each possible draw selects a default, heated or cooled container |
| ContainerShipBuilders.NewFreight | src/main/java/com/github/marcustalbots/haven/builders/ship/ContainerShipBuilder.java:116-121 | one new freight container per identity, of the kind its draw selects, in order |
| ContainerShipBuilders.ContainerShipBuilder.constructor | src/main/java/com/github/marcustalbots/haven/builders/ship/ContainerShipBuilder.java:40-42 | the builder starts with a fresh container ship, and fillOnBuild is off |
| ContainerShipBuilders.ContainerShipBuilder.SetFillOnBuild | src/main/java/com/github/marcustalbots/haven/builders/ship/ContainerShipBuilder.java:65-69 | sets fillOnBuild |
| ContainerShipBuilders.ContainerShipBuilder.SetIdentifier | src/main/java/com/github/marcustalbots/haven/builders/ship/ContainerShipBuilder.java:76-81 | sets the ship's identifier |
| ContainerShipBuilders.ContainerShipBuilder.SetQueue | src/main/java/com/github/marcustalbots/haven/builders/ship/ContainerShipBuilder.java:88-93 | installs the given queue on the ship |
| ContainerShipBuilders.ContainerShipBuilder.SetCapacity | src/main/java/com/github/marcustalbots/haven/builders/ship/ContainerShipBuilder.java:100-105 | delegates to the ship's setCapacity, exceptions included |
| ContainerShipBuilders.ContainerShipBuilder.Build | src/main/java/com/github/marcustalbots/haven/builders/ship/ContainerShipBuilder.java:112-125 | with fillOnBuild set and the ship below its recorded capacity, exactly capacity containers are made and offered in order; the queue keeps its existing contents at the front and gains as many of the new ones as fit under its bound; otherwise the queue is untouched |
| ContainerShipBuilders.ContainerShipBuilder.Reset | src/main/java/com/github/marcustalbots/haven/builders/ship/ContainerShipBuilder.java:132-137 | a fresh container ship replaces the one under construction, and fillOnBuild keeps its value |
| Facade.ShipBuilderFacade.constructor | src/main/java/com/github/marcustalbots/haven/facades/ShipBuilderFacade.java:39-41 | the default capacity starts at 100 |
| Facade.ShipBuilderFacade.BuildOilShip | src/main/java/com/github/marcustalbots/haven/facades/ShipBuilderFacade.java:96-103 | a capacity <= 0 throws, and fillOnBuild is left as it was; otherwise the result is a fresh ship with the identifier, the capacity, a queue bounded by the capacity and exactly capacity new oil containers, and fillOnBuild is left on |
| Facade.ShipBuilderFacade.BuildContainerShip | src/main/java/com/github/marcustalbots/haven/facades/ShipBuilderFacade.java:113-120 | the same for a container ship, whose exactly capacity containers have the kinds the draws select; nothing carries over from an earlier build |
| Facade.ShipBuilderFacade.BuildDefaultOilShip | src/main/java/com/github/marcustalbots/haven/facades/ShipBuilderFacade.java:73-75 | buildOilShip with the current default capacity |
| Facade.ShipBuilderFacade.BuildDefaultContainerShip | src/main/java/com/github/marcustalbots/haven/facades/ShipBuilderFacade.java:84-86 | buildContainerShip with the current default capacity |
| Facade.ShipBuilderFacade.SetDefaultCapacity | src/main/java/com/github/marcustalbots/haven/facades/ShipBuilderFacade.java:128-131 | changes the default capacity and nothing else |
| Cranes.ListedPrefix | src/main/java/com/github/marcustalbots/haven/impl/vehicles/dock_vehicles/offloading_vehicles/Crane.java:57-68 | the number of head containers the crane dispatches: all of them are of a kind it recognises, and the next one, if there is one, is not |
| Cranes.AfterStrategy | src/main/java/com/github/marcustalbots/haven/impl/vehicles/dock_vehicles/offloading_vehicles/Crane.java:60-62 | one offload step: the backlog gains exactly that container when its strategy places it and there is room, and otherwise stays as it was; it never exceeds the capacity |
| Cranes.PlacedOnDock | src/main/java/com/github/marcustalbots/haven/impl/vehicles/dock_vehicles/offloading_vehicles/Crane.java:60-62 | the backlog after the strategies have run for the dispatched containers in turn stays within the dock's capacity, whatever the cooled strategy does |
| Cranes.PlacedOnDockBounds | src/main/java/com/github/marcustalbots/haven/impl/vehicles/dock_vehicles/offloading_vehicles/Crane.java:60-62 | that backlog only grows, and it gains only dispatched containers, each at most as often as it was dispatched |
| Cranes.PlacedOnDockAppend | src/main/java/com/github/marcustalbots/haven/impl/vehicles/dock_vehicles/offloading_vehicles/Crane.java:57-62 | dispatching one more container adds exactly one more strategy step at the end |
| Cranes.Placed | src/main/java/com/github/marcustalbots/haven/impl/vehicles/dock_vehicles/offloading_vehicles/Crane.java:59-62 | the dispatched containers whose strategy places them, in dispatch order: no more than were dispatched, each one placed by its strategy, all of them when every strategy places, and none when none does |
| Cranes.PlacedOnDockWhenRoom | src/main/java/com/github/marcustalbots/haven/impl/vehicles/dock_vehicles/offloading_vehicles/Crane.java:59-62 | when the backlog has room for all dispatched containers, exactly those whose strategy places them reach it: every default and heated one, and the cooled ones when the cooled strategy places them |
| Cranes.DefaultPlacedBesideCooled | src/main/java/com/github/marcustalbots/haven/impl/vehicles/dock_vehicles/offloading_vehicles/Crane.java:59-62 | a default and a cooled container dispatched to an empty dock with room: the default one is placed, and the cooled one only when the cooled strategy places it |
| Cranes.PlacedOnDockWithoutCooled | src/main/java/com/github/marcustalbots/haven/impl/vehicles/dock_vehicles/offloading_vehicles/Crane.java:60-61 | when no cooled container is dispatched, the backlog does not depend on what the cooled strategy does |
| Cranes.Crane.constructor | src/main/java/com/github/marcustalbots/haven/impl/vehicles/dock_vehicles/offloading_vehicles/Crane.java:47-49 | the crane serves the given dock and ship |
| Cranes.Crane.Offload | src/main/java/com/github/marcustalbots/haven/strategies/offload/DefaultOffloadStrategy.java:25-34 | the strategy for one container: the backlog becomes AfterStrategy of the old backlog, so a default or heated container is placed when there is room, and the dock stays valid |
| Cranes.Crane.Run | src/main/java/com/github/marcustalbots/haven/impl/vehicles/dock_vehicles/offloading_vehicles/Crane.java:56-69 | the head containers of recognised kinds are dispatched once each, in queue order; run stops at an empty ship or at the first unrecognised container, which has then left the ship undispatched; the backlog becomes PlacedOnDock of the dispatched containers, for either effect of the cooled strategy |
| ContainerTrucks.ContainerTruck.constructor | src/main/java/com/github/marcustalbots/haven/impl/vehicles/dock_vehicles/transport_vehicles/ContainerTruck.java:46-48 | the truck serves the given dock |
| ContainerTrucks.ContainerTruck.Run | src/main/java/com/github/marcustalbots/haven/impl/vehicles/dock_vehicles/transport_vehicles/ContainerTruck.java:59-69 | every container leaves the backlog exactly once, either delivered or as the one unrecognised container that stops the truck; deliveries are of recognised kinds, and each was least among the containers still waiting; without an unrecognised container the backlog ends empty, and a backlog of recognised kinds only is delivered completely |
| Pumps.SlotAfter | src/main/java/com/github/marcustalbots/haven/strategies/offload/OilOffloadStrategy.java:27-34 | a truck's slot after containers have been pumped into the trucks at the head of the pool, one each: a full slot is kept, and an empty one either stays empty or receives one of the pumped containers |
| Pumps.DrainedAccountsForAll | src/main/java/com/github/marcustalbots/haven/impl/vehicles/dock_vehicles/offloading_vehicles/Pump.java:42-47 | however the loop ends, the containers pumped, the one held while waiting for a truck, if any, and those left aboard make up the ship's queue, in order, and no more containers are pumped than there were trucks |
| Pumps.SlotAfterAppend | src/main/java/com/github/marcustalbots/haven/strategies/offload/OilOffloadStrategy.java:25-34 | pumping one more container puts it into the next truck of the pool when that truck's slot is empty, and leaves the slot of every other truck as it was |
| Pumps.FullSlotKept | src/main/java/com/github/marcustalbots/haven/impl/vehicles/dock_vehicles/transport_vehicles/OilTruck.java:108-111 | however many containers are pumped, a full slot keeps the container it holds |
| Pumps.UnservedSlotKept | src/main/java/com/github/marcustalbots/haven/impl/vehicles/dock_vehicles/offloading_vehicles/Pump.java:42-47 | a truck that was not taken from the pool gets nothing |
| Pumps.EachTruckGetsItsContainer | src/main/java/com/github/marcustalbots/haven/impl/vehicles/dock_vehicles/offloading_vehicles/Pump.java:42-47 | with distinct trucks, the truck at position j of the pool, if its slot was empty, ends up holding the j-th container pumped |
| Pumps.PumpedAsWritten | src/main/java/com/github/marcustalbots/haven/impl/vehicles/dock_vehicles/offloading_vehicles/Pump.java:41-47 | the as-written loop is handed every container of the ship except the head: n - 1 of n containers, and nothing for an empty ship |
| Pumps.HeadNeverPumped | src/main/java/com/github/marcustalbots/haven/impl/vehicles/dock_vehicles/offloading_vehicles/Pump.java:41-43 | when containers are distinct, the ship's head never reaches a truck in the as-written run |
| Pumps.TwoContainerShipLosesOne | src/main/java/com/github/marcustalbots/haven/impl/vehicles/dock_vehicles/offloading_vehicles/Pump.java:41-43 | a ship carrying containers 1 and 2 gets only container 2 pumped |
| Pumps.EmptyPoolStopsAsWrittenRun | src/main/java/com/github/marcustalbots/haven/impl/vehicles/dock_vehicles/offloading_vehicles/Pump.java:40-48 | a pump run as written before any oil truck has registered, on a ship of two or more containers, pumps nothing and waits forever holding the second container |
| Pumps.Pump.constructor | src/main/java/com/github/marcustalbots/haven/impl/vehicles/dock_vehicles/offloading_vehicles/Pump.java:31-33 | the pump serves the given dock and ship |
| Pumps.Pump.OffloadEach | src/main/java/com/github/marcustalbots/haven/impl/vehicles/dock_vehicles/offloading_vehicles/Pump.java:42-47 | until the ship yields null, each container, in queue order, is pumped once into the next truck in the pool; the ship ends empty when there are enough trucks, and otherwise the pump is stuck holding the container after the last truck's, with the rest aboard (Drained); the trucks used leave the pool, and every slot is as SlotAfter says |
| Pumps.Pump.Run | src/main/java/com/github/marcustalbots/haven/impl/vehicles/dock_vehicles/offloading_vehicles/Pump.java:40-48 | as written: the loop drains PumpedAsWritten of the ship's queue, so the head is lost, and it gets stuck like OffloadEach when trucks run out |
| Pumps.Pump.RunCorrected | src/main/java/com/github/marcustalbots/haven/impl/vehicles/dock_vehicles/offloading_vehicles/Pump.java:42-47 | without the first getNext: every container of the ship is pumped, in queue order, while trucks last |

## Left out

- Locks, conditions, fairness flags and interruption are left out. The model is
  sequential, so a timed wait always times out. Nothing in the model stands for an
  `InterruptedException`. The result of `placeContainer` on interrupt, the null of
  `getContainer` and `getOilTruck` on interrupt, and the false of `registerOilTruck` on
  interrupt are therefore not modelled.
- Docking.Dock.GetOilTruck: taking from an empty pool would block forever. It is a
  precondition (the pool is not empty) rather than a modelled wait.
- Docking.Dock.RegisterOilTruck: putting into a full pool would block forever. It is a
  precondition (fewer than three trucks), and so is the registration in the oil truck's
  constructor and the re-registration at the end of OilTrucks.OilTruck.Run.
- Docking.Dock.constructor and Ships.Ship.constructor require a capacity of at least 1. A
  smaller value makes the Java queue constructors throw, and that exception is not modelled.
- The strategies are steps, not code. Their logging and their delays (the Gaussian-random
  `Thread.sleep`) are left out. The default and heated offload strategies place the
  container on the dock and ignore the result. The oil offload strategy takes a truck and
  fills it. The transport strategies do nothing that the model can see.
- The cooled offload strategy is not part of this model. Cranes.Crane.Run takes a flag,
  `cooledPlaces`, that says whether it places its container on the dock as the default and
  heated strategies do. Every crane contract holds for both values, so the model does not
  fix the effect.
- The `compareTo` of heated and cooled containers is not part of this model. The backlog's
  order is a rank function given to the dock.
- Docking.DefaultLeavesLast and Docking.DefaultsLeaveLast hold only for a rank that agrees
  with the default container's compareTo. The queue also orders with the heated and cooled
  comparisons, which need not agree with it. These lemmas therefore do not say which kind
  the program takes from the backlog first.
- Docking.Dock.GetContainer: when several containers share the least rank, which of them is
  returned is left open.
- Container identities (random UUIDs) and the container ship builder's random kind draws
  are inputs: sequences of identities and of draws in `0..2`.
- The singleton `getInstance` methods are left out. The facade is given its two builders.
- OilShipBuilders.OilShipBuilder.Build: the branch that installs a queue when the ship has
  none is not modelled. A ship in this model always has a queue, and a queue given to
  `setQueue` is never null.
- Ships.Ship.SetFreightQueue: the queue is a value, so aliasing between the given queue and
  the ship's queue is not modelled. Only `ArrayBlockingQueue`-like bounded queues exist.
- Cranes.Crane.Run and ContainerTrucks.ContainerTruck.Run: neither pattern `switch` has a
  `case null`, and Java rejects a null selector in such a switch. So an empty ship
  (Crane.java:58-66) or an empty backlog (ContainerTruck.java:62-66) makes `run` throw,
  whatever the comment at Crane.java:63 says. The model returns normally instead. That
  return stands for the exception, and the ship and the dock are left the same either way.
- OilTrucks.OilTruck.Run: when run on its own, a truck's slot is never refilled, so the
  model covers one delivery followed by the timeout that ends the loop.
- Pumps.Pump.OffloadEach, Pumps.Pump.Run and Pumps.Pump.RunCorrected: a getOilTruck on an
  empty pool waits forever. The model ends the loop there with the container in hand
  (`stuck`) rather than running on. EmptyPoolStopsAsWrittenRun is the outcome of
  Pump.run called by itself before any oil truck has registered: nothing pumped, and a wait
  that never ends. App.java does not reach its pump. The first crane's `run` (App.java:51)
  ends `main` with that null-selector exception once its ship is empty, before line 53.
- App.java, the vehicle factories and the abstract base classes are wiring and accessors.
  They are not part of this model.

## Findings

| source | as written | input that shows it | evidently intended | confidence | as-written member | corrected member |
|---|---|---|---|---|---|---|
| src/main/java/com/github/marcustalbots/haven/impl/vehicles/dock_vehicles/offloading_vehicles/Pump.java:41-43 | `run` polls the ship once before its loop and overwrites that result with a second poll, so the ship's first oil container is taken off and never pumped into a truck | an oil ship carrying containers 1 and 2: only container 2 reaches a truck | every container of the ship is pumped, in queue order | high; not executed | Pumps.Pump.Run, Pumps.PumpedAsWritten, Pumps.TwoContainerShipLosesOne | Pumps.Pump.RunCorrected |
