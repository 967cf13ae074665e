/** Option and Result, the two failure-compatible wrappers the model uses. */
module Wrappers {

  /** `None` stands for JavaScript's `undefined`. */
  datatype Option<+T> = None | Some(value: T) {

    /** The `??` operator and a destructuring default: the value, or `default` when undefined. */
    function GetOr(default: T): T {
      match this
      case Some(v) => v
      case None => default
    }
  }

  /** A value, or the error that the component throws. */
  datatype Result<+R, +E> = Success(value: R) | Failure(error: E)
}
