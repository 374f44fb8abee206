/** Optional and failure-carrying values shared by the other modules. */
module Wrappers {

  /** A value that may be absent: JavaScript's `undefined` (or `null`) is `None`. */
  datatype Option<+T> = None | Some(value: T) {
    /** The value, or `default` when absent. */
    function GetOr(default: T): T {
      match this
      case Some(v) => v
      case None => default
    }
  }

  /** The outcome of an operation that may fail with an error value. */
  datatype Result<+T, +E> = Ok(value: T) | Err(error: E)
}
