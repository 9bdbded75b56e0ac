/** Failure-carrying values used throughout the model. */
module Wrappers {

  /** A value that may be absent: the result of a parse that can fail. */
  datatype Option<+T> = None | Some(value: T)

  /** Either a value or the reason there is none. */
  datatype Result<+R, +E> = Success(value: R) | Failure(error: E)
}
