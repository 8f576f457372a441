/** The optional-value and result wrappers shared by every module of the model. */
module Wrappers {

  /** A value that may be absent: the model of JavaScript's `undefined`. */
  datatype Option<+T> = None | Some(value: T) {

    /** The value, or `default` when absent (the `??` and `||` fallbacks). */
    function GetOr(default: T): T {
      match this
      case Some(v) => v
      case None => default
    }
  }

  /** The outcome of a validation or an operation that can fail. */
  datatype Result<+T, +E> = Success(value: T) | Failure(error: E)
}
