/** Optional values and results with an error, as used throughout the model. */
module Wrappers {

  /** A value that may be absent: TypeScript's `undefined` or `null`. */
  datatype Option<+T> = None | Some(value: T)

  /** The outcome of an operation that may raise an exception. */
  datatype Result<+R, +E> = Success(value: R) | Failure(error: E)
}
