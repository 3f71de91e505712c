/** Option and Result values standing for Kotlin's nullable types and thrown exceptions. */
module Wrappers {

  /** A Kotlin `T?`: either a value or null. */
  datatype Option<+T> = None | Some(value: T) {

    /** Kotlin's `?: default` (and `orEmpty()` when the default is empty). */
    function GetOr(default: T): T {
      match this
      case Some(v) => v
      case None => default
    }
  }

  /** The outcome of a call that may throw: a value, or the exception it raises. */
  datatype Result<+T, +E> = Ok(value: T) | Err(error: E)
}
