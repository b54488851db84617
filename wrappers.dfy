/** Optional values, standing for the source's `undefined`/`null`, and the
    nullish-coalescing operator `??` over them. */
module Wrappers {

  datatype Option<+T> = None | Some(value: T)

  /** `o ?? default`: the supplied value whenever there is one (whatever it
      is), the default only when the value is absent. */
  function OrElse<T>(o: Option<T>, default: T): (r: T)
    ensures o.Some? ==> r == o.value
    ensures o.None? ==> r == default
  {
    match o
    case Some(v) => v
    case None => default
  }
}
