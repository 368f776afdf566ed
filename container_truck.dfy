/**
 * ContainerTruck: takes containers from the dock's backlog, one at a time in the backlog's
 * order, and hands each to the transport strategy for its kind.
 */
module ContainerTrucks {
  import opened Wrappers
  import opened Containers
  import opened Docking
  import opened OilTrucks

  /** The container that stops the truck is the one missing from the backlog and the deliveries. */
  lemma HaltedAccounts(b0: multiset<FreightContainer>, rest: multiset<FreightContainer>, delivered: seq<FreightContainer>, c: FreightContainer)
    requires b0 == rest + multiset{c} + multiset(delivered)
    ensures b0 == rest + multiset(delivered) + AsMultiset(Some(c))
    ensures c in b0
  {
  }

  class ContainerTruck {
    const dock: Dock<OilTruck>

    constructor (dock: Dock<OilTruck>)
      ensures this.dock == dock
    {
      this.dock := dock;
    }

    /**
     * run: take and deliver until the backlog yields null, or a container of a kind the
     * truck does not recognise (`halted`), which has then left the backlog undelivered.
     * On null the pattern switch, which has no `case null`, throws instead of returning;
     * the normal return with `halted == None` stands for that exception.
     * Every container is taken once, and each was least among those still waiting.
     */
    method Run() returns (delivered: seq<FreightContainer>, halted: Option<FreightContainer>)
      requires dock.Valid()
      modifies dock`backlog
      ensures dock.Valid()
      ensures old(dock.backlog) == dock.backlog + multiset(delivered) + AsMultiset(halted)
      ensures TakenInOrder(delivered, old(dock.backlog), dock.rank)
      ensures forall i :: 0 <= i < |delivered| ==> IsListed(delivered[i].kind)
      ensures halted.None? ==> dock.backlog == multiset{}
      ensures halted.Some? ==>
        !IsListed(halted.value.kind) && IsLeast(halted.value, dock.backlog + multiset{halted.value}, dock.rank)
      ensures (forall x | x in old(dock.backlog) :: IsListed(x.kind)) ==>
        halted == None && multiset(delivered) == old(dock.backlog)
    {
      ghost var b0 := dock.backlog;
      delivered := [];
      halted := None;
      while true
        invariant dock.Valid() && halted == None
        invariant b0 == dock.backlog + multiset(delivered)
        invariant TakenInOrder(delivered, b0, dock.rank)
        invariant forall i :: 0 <= i < |delivered| ==> IsListed(delivered[i].kind)
        decreases |dock.backlog|
      {
        ghost var waiting := dock.backlog;
        var next := dock.GetContainer();
        if next.None? {
          assert multiset(delivered) == b0;
          assert AsMultiset(halted) == multiset{};
          return;
        }
        var c := next.value;
        assert waiting == dock.backlog + multiset{c};
        if !IsListed(c.kind) {
          halted := Some(c);
          HaltedAccounts(b0, dock.backlog, delivered, c);
          return;
        }
        // the default, heated and cooled transport strategies are logging and a delay
        TakenInOrderExtend(delivered, b0, dock.rank, waiting, c);
        assert multiset(delivered + [c]) == multiset(delivered) + multiset{c};
        delivered := delivered + [c];
      }
    }
  }
}
