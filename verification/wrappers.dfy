/** Optional values and success-or-error results, used wherever the
    source returns `undefined`/`null` or throws an `Error`. */
module Wrappers {

  /** A value that may be absent (`undefined` or `null` in the source). */
  datatype Option<+T> = None | Some(value: T) {
    /** The value, or `default` when absent (the `??`-style fallback). */
    function GetOr(default: T): T {
      match this
      case Some(v) => v
      case None => default
    }
  }

  /** The outcome of an operation that either returns a value or throws an
      `Error` whose message is `error`. */
  datatype Result<+T, +E> = Success(value: T) | Failure(error: E)
}
