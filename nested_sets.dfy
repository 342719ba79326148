/**
 * Nested sets, reduced to what the link-parameter builder relies on: a nested set
 * records, in call order, the items added to it directly and the other nested sets
 * added to it transitively. A builder's `build()` hands back the recorded value.
 */
module NestedSets {

  datatype NestedSet<T> =
    | Empty
    | WithDirect(prefix: NestedSet<T>, item: T)
    | WithTransitive(prefix: NestedSet<T>, nested: NestedSet<T>)

  /** Iteration order: the recorded additions, flattened in the order they were made. */
  function Elements<T>(ns: NestedSet<T>): seq<T>
  {
    match ns
    case Empty => []
    case WithDirect(prefix, x) => Elements(prefix) + [x]
    case WithTransitive(prefix, nested) => Elements(prefix) + Elements(nested)
  }

  /** `NestedSetBuilder.addAll`: adds every item of `xs` directly, one after the other. */
  function AddAll<T>(ns: NestedSet<T>, xs: seq<T>): (r: NestedSet<T>)
    ensures Elements(r) == Elements(ns) + xs
    decreases |xs|
  {
    if xs == [] then ns
    else WithDirect(AddAll(ns, xs[..|xs| - 1]), xs[|xs| - 1])
  }
}
