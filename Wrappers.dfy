/** Optional values and results with an error, used for `undefined` and for thrown errors. */
module Wrappers {

  /** `undefined` (None) or a value. */
  datatype Option<T> = None | Some(value: T)

  /** A value, or the error that would have been thrown instead. */
  datatype Result<T, E> = Success(value: T) | Failure(error: E)
}
