/** Option and Result values for the absent values and error returns of the system. */
module Wrappers {

  /** A value that may be absent: JavaScript's `undefined` / `null`. */
  datatype Option<+T> = None | Some(value: T) {
    /** The value, or `default` when absent. */
    function GetOr(default: T): T {
      match this
      case Some(v) => v
      case None => default
    }
  }

  /** The outcome of an operation that either yields a value or an error. */
  datatype Result<+R, +E> = Success(value: R) | Failure(error: E)
}
