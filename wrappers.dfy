/** Outcomes of operations that can fail, standing in for the exceptions
    the source throws. */
module Wrappers {
  datatype Option<T> = None | Some(value: T)

  /** A value, or the message of the `invalid_argument` the source throws. */
  datatype Result<T> = Success(value: T) | Failure(error: string)
}
