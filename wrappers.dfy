/** Optional values and parse results shared by the whole model. */
module Wrappers {

  /** A value that may be absent: JavaScript's `undefined`/`null`, or a failed lookup. */
  datatype Option<+T> = None | Some(value: T) {
    /** The wrapped value, or `default` when there is none (the `??` operator). */
    function GetOr(default: T): T {
      match this
      case Some(v) => v
      case None => default
    }
  }

  /** The outcome of validating a request body: the parsed value or an error message. */
  datatype Result<+T, +E> = Success(value: T) | Failure(error: E)
}
