/**
 * The containers that travel through the dock. Every container carries an identity
 * (a UUID in the program, an abstract number here); freight containers also carry
 * their kind, which the actors use to pick a strategy and the backlog uses to order them.
 */
module Containers {

  /** Stands for the random UUID each container receives at construction. */
  type ContainerId = nat

  /**
   * The subclasses of AbstractFreightContainer. `Unlisted` stands for any further
   * subclass, which the crane and the container truck do not recognise.
   */
  datatype FreightKind = Default | Heated | Cooled | Unlisted(tag: nat)

  datatype FreightContainer = FreightContainer(id: ContainerId, kind: FreightKind)

  datatype OilContainer = OilContainer(id: ContainerId)

  /** The kinds the crane and the container truck have a strategy for. */
  predicate IsListed(k: FreightKind) {
    k.Default? || k.Heated? || k.Cooled?
  }

  /**
   * DefaultFreightContainer.compareTo: `self` is the receiver, a default container,
   * and `other` the container it is compared with.
   */
  function DefaultCompareTo(self: FreightContainer, other: FreightContainer): (r: int)
    requires self.kind == Default
    ensures r == 0 || r == 1
    ensures r == 0 <==> other.kind == Default
  {
    if other.kind == Default then 0 else 1
  }

  /** The result depends on nothing but the kind of the argument: not on either identity. */
  lemma CompareToDependsOnlyOnKind(a: FreightContainer, b: FreightContainer, o: FreightContainer, p: FreightContainer)
    requires a.kind == Default && b.kind == Default
    requires o.kind == p.kind
    ensures DefaultCompareTo(a, o) == DefaultCompareTo(b, p)
  {
  }

  /**
   * A rank (smaller = leaves the backlog first) agrees with the visible compareTo
   * when it places each default container level with every default container and
   * above every other kind.
   */
  ghost predicate RankAgreesWithDefault(rank: FreightContainer -> int) {
    forall d: FreightContainer, o: FreightContainer {:trigger rank(d), rank(o)} :: d.kind == Default ==>
      (DefaultCompareTo(d, o) == 0 ==> rank(d) == rank(o)) &&
      (DefaultCompareTo(d, o) == 1 ==> rank(d) > rank(o))
  }

  function ExampleRank(c: FreightContainer): int {
    if c.kind == Default then 1 else 0
  }

  /** Such a rank exists, so the assumption is not vacuous. */
  lemma SomeRankAgreesWithDefault()
    ensures RankAgreesWithDefault(ExampleRank)
  {
  }
}
