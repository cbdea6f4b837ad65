/** Option and Result, the failure-carrying datatypes used by the collector model. */
module Wrappers {

  /** A value that may be absent: a decoder result, a Java reference that may be null. */
  datatype Option<+T> = None | Some(value: T) {

    /** Returns the value in Some, or `default` when None. */
    function GetOr(default: T): T {
      match this
      case Some(v) => v
      case None => default
    }
  }

  /** Either a value or the error an operation raises to its caller. */
  datatype Result<+R, +E> = Success(value: R) | Failure(error: E)
}
