/** Option and Result, the failure-carrying values used throughout the model. */
module Wrappers {

  datatype Option<+T> = None | Some(value: T) {
    /** Python's `x or default` on an optional value that is never falsy when present. */
    function GetOr(default: T): T {
      match this
      case Some(v) => v
      case None => default
    }
  }

  /** The success value, or the error the source raises. */
  datatype Result<+T, +E> = Success(value: T) | Failure(error: E)
}
