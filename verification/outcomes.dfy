/** Optional values and success/failure results, used wherever the app's Swift
    code has an optional (`T?`) or reports an error message instead of a value. */
module Outcomes {

  /** Swift's `T?`: `nil` is `None`. */
  datatype Option<+T> = None | Some(value: T) {

    /** Swift's `??`: the wrapped value, or `default` when there is none. */
    function GetOr(default: T): (r: T)
      ensures Some? ==> r == value
      ensures None? ==> r == default
    {
      match this
      case Some(v) => v
      case None => default
    }
  }

  /** A computation that either produced a value or stopped with an error. */
  datatype Result<+R, +E> = Success(value: R) | Failure(error: E)
}
