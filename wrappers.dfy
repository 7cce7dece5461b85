/** Option and Result, the shapes used for the source's nullable values and its thrown exceptions. */
module Wrappers {

  /** A value that may be absent (a Java null). */
  datatype Option<+T> = None | Some(value: T) {

    /** The value, or `default` when absent. */
    function GetOr(default: T): T {
      match this
      case Some(v) => v
      case None => default
    }
  }

  /** The outcome of a service operation: a value, or the error it throws. */
  datatype Result<+R, +E> = Success(value: R) | Failure(error: E)
}
