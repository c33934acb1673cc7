/** The two failure-carrying wrappers the model uses: Swift optionals and
    Python/Swift "value or raised error" outcomes. */
module Wrappers {

  datatype Option<+T> = None | Some(value: T) {

    /** The wrapped value, or `default` when there is none (Swift's `??`). */
    function GetOr(default: T): T {
      match this
      case Some(v) => v
      case None => default
    }
  }

  /** A returned value, or the error a call throws or raises. */
  datatype Result<+R, +E> = Success(value: R) | Failure(error: E)
}
