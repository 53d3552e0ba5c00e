/** Optional values and success-or-error results, the two shapes every service call returns. */
module Wrappers {

  datatype Option<+T> = None | Some(value: T) {

    /** The value if present, otherwise the given default (an absent DTO field keeps the stored value). */
    function GetOr(default: T): T {
      if Some? then value else default
    }
  }

  datatype Result<+T, +E> = Ok(value: T) | Err(error: E)

  /** The success value passed through `f`; an error is kept as it is. */
  function MapOk<T, U, E>(r: Result<T, E>, f: T -> U): Result<U, E> {
    match r
    case Ok(v) => Ok(f(v))
    case Err(e) => Err(e)
  }
}
