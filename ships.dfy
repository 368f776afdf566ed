/**
 * AbstractShip: a ship's freight queue (a java.util.concurrent.ArrayBlockingQueue) and
 * the capacity the ship records for it. The two can drift apart: shrinking the capacity
 * changes only the recorded number, while the queue keeps the bound it was created with.
 */
module Ships {
  import opened Wrappers

  /** The exceptions the ship's operations throw. */
  datatype ShipError =
    | NonPositiveCapacity   // setCapacity with a value <= 0
    | BelowOccupancy        // setCapacity below the number of queued containers
    | QueueFull             // drainTo into a new queue that is too small (IllegalStateException)
    | FreightTooLarge       // setFreight with more containers than the capacity

  datatype Outcome = Pass | Fail(error: ShipError)

  datatype Result<T> = Ok(value: T) | Err(error: ShipError)

  /** A bounded FIFO queue: its elements, head first, and the bound it was created with. */
  datatype Queue<T> = Queue(items: seq<T>, bound: nat) {
    predicate Valid() {
      |items| <= bound
    }

    function RemainingCapacity(): int {
      bound - |items|
    }
  }

  /**
   * Offering each of `es` in turn, stopping at the first offer the queue refuses.
   * The flag says whether every offer was accepted.
   */
  function OfferEach<T>(q: Queue<T>, es: seq<T>): (r: (Queue<T>, bool))
    requires q.Valid()
    ensures r.0.Valid() && r.0.bound == q.bound
    ensures |q.items| <= |r.0.items| <= |q.items| + |es|
    ensures r.0.items == q.items + es[..|r.0.items| - |q.items|]
    ensures r.1 <==> |q.items| + |es| <= q.bound
    ensures r.1 ==> r.0.items == q.items + es
    ensures !r.1 ==> |r.0.items| == q.bound
    decreases |es|
  {
    if es == [] then (q, true)
    else if |q.items| < q.bound then OfferEach(Queue(q.items + [es[0]], q.bound), es[1..])
    else (q, false)
  }

  /** Collection.removeAll: every element that occurs in `coll` is dropped, the rest keep their order. */
  function Withdrawn<T(==)>(items: seq<T>, coll: seq<T>): (r: seq<T>)
    ensures |r| <= |items|
    ensures forall i :: 0 <= i < |r| ==> r[i] in items && r[i] !in coll
    ensures forall i :: 0 <= i < |items| && items[i] !in coll ==> items[i] in r
    ensures (forall i :: 0 <= i < |items| ==> items[i] !in coll) ==> r == items
  {
    if items == [] then []
    else if items[0] in coll then Withdrawn(items[1..], coll)
    else [items[0]] + Withdrawn(items[1..], coll)
  }

  /**
   * removeAll works element by element: withdrawing from two parts of a queue and joining
   * the results is withdrawing from the whole, so the remaining elements keep their order.
   */
  lemma {:induction false} WithdrawnAppend<T>(a: seq<T>, b: seq<T>, coll: seq<T>)
    ensures Withdrawn(a + b, coll) == Withdrawn(a, coll) + Withdrawn(b, coll)
    decreases |a|
  {
    if a == [] {
      assert a + b == b;
    } else {
      assert (a + b)[0] == a[0] && (a + b)[1..] == a[1..] + b;
      WithdrawnAppend(a[1..], b, coll);
      if a[0] !in coll {
        assert [a[0]] + Withdrawn(a[1..], coll) + Withdrawn(b, coll) == [a[0]] + (Withdrawn(a[1..], coll) + Withdrawn(b, coll));
      }
    }
  }

  /** What setFreight(coll) does to the queue, and what it returns or throws. */
  function FreightSet<T(==)>(q: Queue<T>, capacity: int, coll: seq<T>): (r: (Queue<T>, Result<bool>))
    requires q.Valid()
    ensures r.0.Valid() && r.0.bound == q.bound
    ensures |coll| > capacity ==> r == (q, Err(FreightTooLarge))
    ensures |coll| <= capacity ==>
      var kept := Withdrawn(q.items, coll);
      r.1 == Ok(|kept| + |coll| <= q.bound) &&
      |kept| <= |r.0.items| <= |kept| + |coll| &&
      r.0.items == kept + coll[..|r.0.items| - |kept|]
    ensures |coll| <= capacity && r.1 == Ok(true) ==> r.0.items == Withdrawn(q.items, coll) + coll
    ensures |coll| <= capacity && r.1 == Ok(false) ==> |r.0.items| == q.bound
  {
    if |coll| > capacity then (q, Err(FreightTooLarge))
    else
      var offered := OfferEach(Queue(Withdrawn(q.items, coll), q.bound), coll);
      (offered.0, Ok(offered.1))
  }

  /**
   * What setCapacity(c) does to the queue and the recorded capacity. Growing installs a
   * new queue bounded by c and drains the old one into it; when the old queue holds more
   * than c elements (possible after a shrink, see below) the drain throws once the new
   * queue is full, the undrained elements stay behind in the discarded queue and the
   * recorded capacity is left as it was.
   */
  function Resized<T>(q: Queue<T>, capacity: int, c: int): (r: (Queue<T>, int, Outcome))
    requires q.Valid()
    ensures r.0.Valid()
    ensures r.2 == Pass <==> c > 0 && |q.items| <= c
    ensures r.2 == Pass ==> r.0.items == q.items && r.1 == c
    ensures r.2 == Pass && c <= capacity ==> r.0 == q
    ensures r.2 == Pass && c > capacity ==> r.0.bound == c
    ensures r.2.Fail? ==> r.1 == capacity
    ensures c <= 0 ==> r == (q, capacity, Fail(NonPositiveCapacity))
    ensures 0 < c <= capacity && c < |q.items| ==> r == (q, capacity, Fail(BelowOccupancy))
    ensures c > 0 && c > capacity && |q.items| > c ==> r == (Queue(q.items[..c], c), capacity, Fail(QueueFull))
  {
    if c <= 0 then (q, capacity, Fail(NonPositiveCapacity))
    else if c > capacity then
      if |q.items| <= c then (Queue(q.items, c), c, Pass)
      else (Queue(q.items[..c], c), capacity, Fail(QueueFull))
    else if c < |q.items| then (q, capacity, Fail(BelowOccupancy))
    else (q, c, Pass)
  }

  /**
   * After a shrink the queue still accepts containers up to its old bound: a ship of
   * capacity 2 shrunk to 1 accepts a second container, beyond its recorded capacity.
   */
  lemma ShrunkShipAcceptsBeyondCapacity<T>(a: T, b: T)
    ensures var r := Resized(Queue([], 2), 2, 1);
      r.1 == 1 && r.2 == Pass &&
      OfferEach(r.0, [a, b]) == (Queue([a, b], 2), true)
  {
    var r := Resized<T>(Queue([], 2), 2, 1);
    assert r.0.items == [] && r.0.bound == 2;
    assert [a, b][1..] == [b] && [b][1..] == [];
    assert [] + [a] == [a] && [a] + [b] == [a, b];
    calc {
      OfferEach(r.0, [a, b]);
      OfferEach(Queue([a], 2), [b]);
      OfferEach(Queue([a, b], 2), []);
    }
  }

  /**
   * ...and growing it again to less than its real contents throws and drops freight:
   * a shrunk-then-overfilled queue of three grown to a capacity of two keeps only two.
   */
  lemma GrowAfterOverfillLosesFreight<T>(a: T, b: T, d: T)
    ensures Resized(Queue([a, b, d], 3), 1, 2) == (Queue([a, b], 2), 1, Fail(QueueFull))
  {
    assert [a, b, d][..2] == [a, b];
  }

  /** Whether a builder's build fills the queue: fillOnBuild is set and the ship is below its recorded capacity. */
  predicate FillsOnBuild<T>(fillOnBuild: bool, q: Queue<T>, capacity: int) {
    capacity > |q.items| && fillOnBuild
  }

  /**
   * The ship: its identifier (null in a fresh ship), its freight queue and the capacity
   * it records.
   */
  class Ship<T(==)> {
    var identifier: Option<string>
    var freight: Queue<T>
    var capacity: int

    ghost predicate Valid()
      reads this
    {
      freight.Valid() && capacity >= 1
    }

    /** AbstractShip(identifier, capacity): a new, empty queue bounded by capacity. */
    constructor (identifier: Option<string>, capacity: int)
      requires capacity >= 1
      ensures Valid()
      ensures this.identifier == identifier && this.capacity == capacity
      ensures freight == Queue([], capacity)
    {
      this.identifier := identifier;
      this.capacity := capacity;
      freight := Queue([], capacity);
    }

    /** addFreight: offer at the tail; refused, with nothing changed, when the queue is full. */
    method AddFreight(x: T) returns (added: bool)
      requires Valid()
      modifies this`freight
      ensures Valid() && freight.bound == old(freight.bound)
      ensures added <==> |old(freight.items)| < freight.bound
      ensures freight.items == if added then old(freight.items) + [x] else old(freight.items)
    {
      added := |freight.items| < freight.bound;
      if added {
        freight := freight.(items := freight.items + [x]);
      }
    }

    /** getNext: poll the head; null, with nothing changed, on an empty queue. */
    method GetNext() returns (next: Option<T>)
      requires Valid()
      modifies this`freight
      ensures Valid() && freight.bound == old(freight.bound)
      ensures old(freight.items) == [] ==> next == None && freight == old(freight)
      ensures old(freight.items) != [] ==>
        next == Some(old(freight.items)[0]) && freight.items == old(freight.items)[1..]
    {
      if freight.items == [] {
        next := None;
      } else {
        next := Some(freight.items[0]);
        freight := freight.(items := freight.items[1..]);
      }
    }

    /** setFreight: remove what occurs in `coll`, then offer each element of `coll` in order. */
    method SetFreight(coll: seq<T>) returns (r: Result<bool>)
      requires Valid()
      modifies this`freight
      ensures Valid()
      ensures (freight, r) == FreightSet(old(freight), capacity, coll)
    {
      if |coll| > capacity {
        return Err(FreightTooLarge);
      }
      freight := freight.(items := Withdrawn(freight.items, coll));
      ghost var start := freight;
      for i := 0 to |coll|
        invariant freight.Valid() && freight.bound == start.bound
        invariant OfferEach(start, coll) == OfferEach(freight, coll[i..])
      {
        assert coll[i..][1..] == coll[i + 1..];
        var added := AddFreight(coll[i]);
        if !added {
          return Ok(false);
        }
      }
      return Ok(true);
    }

    method GetCapacity() returns (c: int)
      requires Valid()
      ensures c == capacity && c >= 1
    {
      c := capacity;
    }

    /** setCapacity, as Resized describes it. */
    method SetCapacity(c: int) returns (r: Outcome)
      requires Valid()
      modifies this`freight, this`capacity
      ensures Valid()
      ensures (freight, capacity, r) == Resized(old(freight), old(capacity), c)
    {
      if c <= 0 {
        return Fail(NonPositiveCapacity);
      }
      if c > capacity {
        var old_queue := freight;
        freight := Queue([], c);
        // drainTo: move the old queue's elements, head first, into the new one
        var i := 0;
        while i < |old_queue.items|
          invariant 0 <= i <= |old_queue.items| && i <= c
          invariant capacity == old(capacity)
          invariant freight == Queue(old_queue.items[..i], c)
        {
          if i == c {
            return Fail(QueueFull);
          }
          freight := freight.(items := freight.items + [old_queue.items[i]]);
          i := i + 1;
        }
        assert old_queue.items[..i] == old_queue.items;
      } else if c < |freight.items| {
        return Fail(BelowOccupancy);
      }
      capacity := c;
      r := Pass;
    }

    /** setFreightQueue: install the given queue; the recorded capacity stays as it is. */
    method SetFreightQueue(q: Queue<T>)
      requires Valid() && q.Valid()
      modifies this`freight
      ensures Valid() && freight == q
    {
      freight := q;
    }

    method SetIdentifier(id: string)
      modifies this`identifier
      ensures identifier == Some(id)
    {
      identifier := Some(id);
    }
  }
}
