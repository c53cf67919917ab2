/** Optional values and results of fallible operations, used by every other module. */
module Wrappers {

  /** A value that may be absent: TypeScript's `T | undefined` (or `T | null`). */
  datatype Option<+T> = None | Some(value: T) {
    function GetOr(default: T): T {
      match this
      case Some(v) => v
      case None => default
    }
  }

  /** The outcome of an operation that can fail: a resolved or a rejected promise. */
  datatype Result<+T, +E> = Success(value: T) | Failure(error: E)
}
