/** Option and Result, used for JavaScript's null/undefined and for thrown errors. */
module Wrappers {

  datatype Option<+T> = None | Some(value: T)
  {
    /** `given ?? fallback`: the value when present, the fallback otherwise. */
    function UnwrapOr(fallback: T): T
    {
      if Some? then value else fallback
    }
  }

  datatype Result<+T, +E> = Success(value: T) | Failure(error: E)
}
