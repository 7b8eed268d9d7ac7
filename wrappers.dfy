/** Optional values and results with an error, used for nullable columns and failing handlers. */
module Wrappers {

  /** A value that may be absent: a SQL NULL or a JavaScript null/undefined. */
  datatype Option<+T> = None | Some(value: T) {
    function GetOr(default: T): T {
      match this
      case Some(v) => v
      case None => default
    }
  }

  /** The outcome of a handler that can throw: a value, or the error message it reports. */
  datatype Result<+R, +E> = Success(value: R) | Failure(error: E)
}
