/** Optional values and results with an error, used across the model. */
module Wrappers {

  /** A value that may be absent (an undefined property in the source). */
  datatype Option<+T> = None | Some(value: T)

  /** The outcome of an operation that can fail with an error of type E. */
  datatype Result<+T, +E> = Success(value: T) | Failure(error: E)
}
