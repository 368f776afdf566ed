/**
 * ContainerShip and OilShip: the two concrete ships, their fresh state and their equals.
 * Both carry an AbstractShip; they differ in the containers they hold.
 */
module ShipKinds {
  import opened Wrappers
  import opened Containers
  import opened Ships

  type ContainerShip = Ship<FreightContainer>
  type OilShip = Ship<OilContainer>

  /** ContainerShip(): no identifier, capacity 1, an empty queue bounded by 1. */
  method NewContainerShip() returns (s: ContainerShip)
    ensures fresh(s) && s.Valid()
    ensures s.identifier == None && s.capacity == 1 && s.freight == Queue([], 1)
  {
    s := new Ship(None, 1);
  }

  /** OilShip(): no identifier, capacity 1, an empty queue bounded by 1. */
  method NewOilShip() returns (s: OilShip)
    ensures fresh(s) && s.Valid()
    ensures s.identifier == None && s.capacity == 1 && s.freight == Queue([], 1)
  {
    s := new Ship(None, 1);
  }

  /** The Object handed to equals: one of the two ships, or anything else. */
  datatype Object = ContainerShipObject(cs: ContainerShip) | OilShipObject(os: OilShip) | OtherObject {
    function Footprint(): set<object> {
      match this
      case ContainerShipObject(s) => {s}
      case OilShipObject(s) => {s}
      case OtherObject => {}
    }
  }

  /** Collection.containsAll: every element of `b` occurs in `a`. */
  predicate ContainsAll<T(==)>(a: seq<T>, b: seq<T>) {
    forall i :: 0 <= i < |b| ==> b[i] in a
  }

  /** The comparison both equals methods make, for ships with these identifiers and contents. */
  predicate SameShip<T(==)>(id: Option<string>, items: seq<T>, otherId: Option<string>, otherItems: seq<T>) {
    otherId == id && ContainsAll(otherItems, items) && ContainsAll(items, otherItems)
  }

  /** Containers aboard, forgetting order and multiplicity. */
  function Elements<T>(items: seq<T>): set<T> {
    set i | 0 <= i < |items| :: items[i]
  }

  /** The comparison holds exactly when the identifiers agree and the same containers are aboard. */
  lemma SameShipIffSameElements<T>(id: Option<string>, items: seq<T>, otherId: Option<string>, otherItems: seq<T>)
    ensures SameShip(id, items, otherId, otherItems) <==> id == otherId && Elements(items) == Elements(otherItems)
  {
    if Elements(items) == Elements(otherItems) {
      forall i | 0 <= i < |items|
        ensures items[i] in otherItems
      {
        assert items[i] in Elements(otherItems);
      }
      forall i | 0 <= i < |otherItems|
        ensures otherItems[i] in items
      {
        assert otherItems[i] in Elements(items);
      }
    }
    if ContainsAll(otherItems, items) && ContainsAll(items, otherItems) {
      forall x | x in Elements(items)
        ensures x in Elements(otherItems)
      {
        var i :| 0 <= i < |items| && items[i] == x;
        var j :| 0 <= j < |otherItems| && otherItems[j] == x;
      }
      forall x | x in Elements(otherItems)
        ensures x in Elements(items)
      {
        var j :| 0 <= j < |otherItems| && otherItems[j] == x;
        var i :| 0 <= i < |items| && items[i] == x;
      }
    }
  }

  /** ContainerShip.equals. */
  predicate ContainerShipEquals(s: ContainerShip, o: Object)
    reads s, o.Footprint()
    ensures ContainerShipEquals(s, o) ==> o.ContainerShipObject? && o.cs.identifier == s.identifier
  {
    match o
    case ContainerShipObject(c) => SameShip(s.identifier, s.freight.items, c.identifier, c.freight.items)
    case _ => false
  }

  /** OilShip.equals. */
  predicate OilShipEquals(s: OilShip, o: Object)
    reads s, o.Footprint()
    ensures OilShipEquals(s, o) ==> o.OilShipObject? && o.os.identifier == s.identifier
  {
    match o
    case OilShipObject(c) => SameShip(s.identifier, s.freight.items, c.identifier, c.freight.items)
    case _ => false
  }

  /**
   * A container ship equals exactly the container ships with the same identifier and the
   * same containers aboard, in any order and any number of times; nothing else.
   */
  lemma ContainerShipEqualsMeaning(s: ContainerShip, o: Object)
    ensures ContainerShipEquals(s, o) <==>
      o.ContainerShipObject? && o.cs.identifier == s.identifier &&
      Elements(o.cs.freight.items) == Elements(s.freight.items)
  {
    if o.ContainerShipObject? {
      SameShipIffSameElements(s.identifier, s.freight.items, o.cs.identifier, o.cs.freight.items);
    }
  }

  /** An oil ship equals exactly the oil ships with the same identifier and the same containers aboard. */
  lemma OilShipEqualsMeaning(s: OilShip, o: Object)
    ensures OilShipEquals(s, o) <==>
      o.OilShipObject? && o.os.identifier == s.identifier &&
      Elements(o.os.freight.items) == Elements(s.freight.items)
  {
    if o.OilShipObject? {
      SameShipIffSameElements(s.identifier, s.freight.items, o.os.identifier, o.os.freight.items);
    }
  }

  lemma ContainerShipEqualsReflexive(s: ContainerShip)
    ensures ContainerShipEquals(s, ContainerShipObject(s))
  {
    ContainerShipEqualsMeaning(s, ContainerShipObject(s));
  }

  lemma ContainerShipEqualsSymmetric(s: ContainerShip, t: ContainerShip)
    ensures ContainerShipEquals(s, ContainerShipObject(t)) <==> ContainerShipEquals(t, ContainerShipObject(s))
  {
  }

  lemma OilShipEqualsReflexive(s: OilShip)
    ensures OilShipEquals(s, OilShipObject(s))
  {
    OilShipEqualsMeaning(s, OilShipObject(s));
  }

  lemma OilShipEqualsSymmetric(s: OilShip, t: OilShip)
    ensures OilShipEquals(s, OilShipObject(t)) <==> OilShipEquals(t, OilShipObject(s))
  {
  }

  /** Equality never crosses between the two kinds of ship, nor to any other object. */
  lemma ShipsOfDifferentKindsDiffer(c: ContainerShip, s: OilShip)
    ensures !ContainerShipEquals(c, OilShipObject(s)) && !ContainerShipEquals(c, OtherObject)
    ensures !OilShipEquals(s, ContainerShipObject(c)) && !OilShipEquals(s, OtherObject)
  {
  }
}
