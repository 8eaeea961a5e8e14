/** Option and Result values standing in for Python's None and raised exceptions. */
module Wrappers {

  /** A value that may be absent (Python's `Optional[T]`, with None as `None`). */
  datatype Option<+T> = None | Some(value: T) {
    function GetOr(default: T): T {
      match this
      case Some(v) => v
      case None => default
    }
  }

  /** The outcome of an operation that either returns a value or raises an error. */
  datatype Result<+T, +E> = Success(value: T) | Failure(error: E)
}
