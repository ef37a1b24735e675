/** Optional values and success-or-failure results, shared by every module. */
module Wrappers {

  /** A value that may be absent (TypeScript's `T | undefined` or `T | null`). */
  datatype Option<+T> = None | Some(value: T)

  /** The outcome of an operation that either produces a value or throws. */
  datatype Result<+T, +E> = Success(value: T) | Failure(error: E)
}
