/** Optional values and results with an error, in place of Python's `None` and raised exceptions. */
module Wrappers {

  /** A value that may be absent (`None` in the source). */
  datatype Option<T> = None | Some(value: T)

  /** Either a value or the error that the source would raise instead. */
  datatype Result<T, E> = Success(value: T) | Failure(error: E)
}
