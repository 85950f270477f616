/** Optional values and error-or-value results, shared by every module. */
module Wrappers {

  /** A value that may be absent: Java's `null`, JavaScript's `undefined`. */
  datatype Option<+T> = None | Some(value: T)

  /** The outcome of an operation that either returns a value or raises an error. */
  datatype Result<+T, +E> = Success(value: T) | Failure(error: E)
}
