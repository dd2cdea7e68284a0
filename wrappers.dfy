/** Optional values and results with an error, used across the model. */
module Wrappers {

  /** A value that may be missing (Python's `None`). */
  datatype Option<+T> = None | Some(value: T)

  /** A value, or the error (exception) that took its place. */
  datatype Result<+T, +E> = Success(value: T) | Failure(error: E)
}
