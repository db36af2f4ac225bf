/** Optional values: a JSON field that is absent or null, or an array slot that does not exist. */
module Wrappers {

  datatype Option<+T> = None | Some(value: T) {

    /** The value, or `default` when there is none (JavaScript's `??`). */
    function GetOr(default: T): T
    {
      match this
      case Some(v) => v
      case None => default
    }
  }

  /** `xs?.[i]`: the element at index `i` of an optional array, if both exist. */
  function At<T>(xs: Option<seq<T>>, i: nat): (r: Option<T>)
    ensures r.Some? <==> xs.Some? && i < |xs.value|
    ensures r.Some? ==> r.value == xs.value[i]
  {
    if xs.Some? && i < |xs.value| then Some(xs.value[i]) else None
  }
}
