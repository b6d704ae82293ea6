/** Option and Result, the two failure-carrying wrappers the model uses for
    JavaScript's `null`/`undefined` values and thrown errors. */
module Wrappers {

  /** `None` stands for a JavaScript `null` or `undefined`. */
  datatype Option<+T> = None | Some(value: T) {
    function GetOr(default: T): T {
      match this
      case Some(v) => v
      case None => default
    }
  }

  /** The outcome of a handler that may throw: `Failure` carries the error message. */
  datatype Result<+T, +E> = Success(value: T) | Failure(error: E)
}
