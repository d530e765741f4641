/** Iteration over a Go map, whose order the language leaves open. */
module GoMaps {

  /** The orders in which a map's keys can be iterated. */
  predicate IterationOrder(order: seq<string>, keys: set<string>) {
    && (forall k <- order :: k in keys)
    && (forall k <- keys :: k in order)
    && forall i, j | 0 <= i < j < |order| :: order[i] != order[j]
  }

  /** Some order; callers cannot tell which. */
  method MapOrder(keys: set<string>) returns (order: seq<string>)
    ensures IterationOrder(order, keys)
  {
    order := [];
    var rest := keys;
    while rest != {}
      invariant rest <= keys && IterationOrder(order, keys - rest)
    {
      var k :| k in rest;
      order, rest := order + [k], rest - {k};
    }
  }
}
