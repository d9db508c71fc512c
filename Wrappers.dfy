/** Optional values, fallible results and the possible outcomes of one stream activation. */
module Wrappers {

  /** A value that may be absent (JavaScript `undefined`). */
  datatype Option<+T> = None | Some(value: T) {
    function GetOr(default: T): T {
      match this
      case Some(v) => v
      case None => default
    }
  }

  /** The result of a request that either delivers a value or fails. */
  datatype Result<+T, +E> = Success(value: T) | Failure(error: E)

  /** What a single-shot stream does before it terminates: it completes without a
      value (`EMPTY`, a `filter` that drops its input, `forkJoin([])`), emits one
      value, or fails with an error. */
  datatype Emission<+T, +E> = NoValue | Value(value: T) | Error(error: E)
}
