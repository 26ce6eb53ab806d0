/** Option and Result datatypes used throughout the model. */
module Wrappers {

  /** A value that may be absent: the model's stand-in for a nil interface or pointer. */
  datatype Option<+T> = None | Some(value: T)

  /** Either a value or an error. */
  datatype Result<+R, +E> = Success(value: R) | Failure(error: E)
}
