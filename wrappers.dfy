/** Option and Result values used for the source's fallbacks and error returns. */
module Wrappers {

  /** An optional value: `None` stands for a field the source leaves undefined. */
  datatype Option<+T> = None | Some(value: T) {
    /** The value, or `default` when there is none (JavaScript's `??`). */
    function GetOr(default: T): T {
      match this
      case Some(v) => v
      case None => default
    }
  }

  /** The outcome of an operation that can be rejected. */
  datatype Result<+R, +E> = Success(value: R) | Failure(error: E)
}
