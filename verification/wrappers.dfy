/** Optional values and results, as the logger's configuration uses them. */
module Wrappers {

  /** Swift's `Optional`: `Nil` is `nil`, so that the log level `none` keeps its own name. */
  datatype Option<+T> = Nil | Some(value: T) {

    /** Swift's nil-coalescing operator `self ?? default`. */
    function GetOr(default: T): (r: T)
      ensures Some? ==> r == value
      ensures Nil? ==> r == default
    {
      match this
      case Some(v) => v
      case Nil => default
    }
  }

  /** The outcome of an operation that can fail with an error value. */
  datatype Result<+R, +E> = Success(value: R) | Failure(error: E)
}
