/** Optional values and results, the shapes the model uses for JavaScript's
    `undefined` and for operations that either succeed or fail. */
module Wrappers {

  /** `Some(v)` for a present value, `None` for `undefined` (or a missing key). */
  datatype Option<+T> = None | Some(value: T) {

    /** The value, or `default` when absent. */
    function GetOr(default: T): T {
      match this
      case Some(v) => v
      case None => default
    }
  }

  /** The outcome of an operation that may fail with an error value. */
  datatype Result<+R, +E> = Success(value: R) | Failure(error: E)
}
