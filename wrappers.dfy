/** Optional values and results that either carry a value or the message of a thrown error. */
module Wrappers {

  /** A JavaScript value that may be `undefined`. */
  datatype Option<+T> = None | Some(value: T) {

    /** The value, or `default` when absent (the `??` operator). */
    function GetOr(default: T): T {
      match this
      case Some(v) => v
      case None => default
    }
  }

  /** The outcome of an operation that may throw: its value, or the message of the error. */
  datatype Result<+T> = Success(value: T) | Failure(error: string)
}
