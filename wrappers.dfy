/** Optional values (Java null, JavaScript undefined) and success/failure results (Java exceptions). */
module Wrappers {

  /** A value that may be absent: Java's null reference or JavaScript's undefined. */
  datatype Option<+T> = None | Some(value: T) {
    /** The value, or `default` when absent (Java's `x != null ? x : default`). */
    function GetOr(default: T): T {
      match this
      case Some(v) => v
      case None => default
    }
  }

  /** The outcome of an operation that may throw: `Failure` carries the exception message. */
  datatype Result<+R, +E> = Success(value: R) | Failure(error: E)
}
