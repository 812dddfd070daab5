/** Option and Result: a possibly-null reference, and an operation that may throw. */
module Wrappers {

  /** A value that may be absent (`null` in the modelled code). */
  datatype Option<+T> = None | Some(value: T) {
    function GetOr(default: T): T {
      match this
      case Some(v) => v
      case None => default
    }
  }

  /** The outcome of an operation that either returns a value or throws. */
  datatype Result<+T, +E> = Ok(value: T) | Err(error: E)
}
