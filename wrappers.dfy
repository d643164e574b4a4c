/** Small failure-compatible helpers shared by every module of the model. */
module Wrappers {
  datatype Option<+T> = None | Some(value: T)

  /** True when `order` lists every element of `keys` exactly once: the
      iteration order of a hash map, which the model takes as an input. */
  predicate IsEnumeration(order: seq<int>, keys: set<int>)
  {
    && (forall i, j :: 0 <= i < j < |order| ==> order[i] != order[j])
    && (forall i :: 0 <= i < |order| ==> order[i] in keys)
    && (forall k :: k in keys ==> k in order)
  }
}
