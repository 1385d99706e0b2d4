/** Option and Result, the failure-carrying values used throughout the model. */
module Wrappers {

  datatype Option<+T> = None | Some(value: T) {
    function GetOr(default: T): T {
      match this
      case Some(v) => v
      case None => default
    }
  }

  /** A computation that either produced a `value` or failed with an `error`,
      standing for a returned value or a thrown exception. */
  datatype Result<+R, +E> = Success(value: R) | Failure(error: E)
}
