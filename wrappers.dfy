/** Option and Result, the two failure-carrying shapes the model uses. */
module Wrappers {

  datatype Option<+T> = None | Some(value: T) {
    function GetOr(default: T): T {
      match this
      case Some(v) => v
      case None => default
    }
  }

  /** A value, or the error the source would throw instead of returning it. */
  datatype Result<+T, +E> = Success(value: T) | Failure(error: E)
}
