/** Failure-carrying result types shared by the model. */
module Wrappers {

  /** A value that may be absent (Python's `None`). */
  datatype Option<+T> = None | Some(value: T)

  /** Either a computed value or the reason it could not be computed. */
  datatype Result<+R, +E> = Success(value: R) | Failure(error: E)

  /** The outcome of a validator that either passes or raises a validation error. */
  datatype Outcome<+E> = Pass | Fail(error: E)
}
