/** Option and Result, the two failure-carrying shapes used throughout the model. */
module Wrappers {

  /** A nullable value: Kotlin's `T?`. */
  datatype Option<+T> = None | Some(value: T) {
    function GetOr(default: T): T {
      match this
      case Some(v) => v
      case None => default
    }
  }

  /** The outcome of an operation that may throw. */
  datatype Result<+R, +E> = Success(value: R) | Failure(error: E)
}
