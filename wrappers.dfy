/** Option and Result, the shapes of Go's nil-able values and `(value, error)` returns. */
module Wrappers {

  /** A value that may be absent: Go's nil slice or nil pointer versus a present one. */
  datatype Option<T> = None | Some(value: T) {

    /** The value, or `default` when absent. */
    function GetOr(default: T): T {
      match this
      case Some(v) => v
      case None => default
    }
  }

  /** A value or an error, for Go functions that return `(T, error)`. */
  datatype Result<T, E> = Success(value: T) | Failure(error: E)
}
