/** Optional values and success/failure results, standing in for the
    source's `undefined`-able fields and for rejected promises. */
module Wrappers {

  /** A value that may be absent (`undefined` or `null` in the source). */
  datatype Option<+T> = None | Some(value: T) {

    /** The value, or `default` when absent. */
    function GetOr(default: T): T {
      match this
      case Some(v) => v
      case None => default
    }
  }

  /** The outcome of an asynchronous call: it resolves with a value or
      rejects with an error. */
  datatype Result<+R, +E> = Success(value: R) | Failure(error: E)
}
