/** Keys that keep large predicates closed: `forall facet :: Shown(facet) && facet.Table? ==> Body` says no more and
    no less than `Body`, but the verifier looks inside only where a proof has asserted `Shown(Table)`. */
module Facets {

  datatype Facet = Table | Slots | Chunks | Mapping | Handling | Rounds

  predicate Shown(facet: Facet) {
    true
  }
}
