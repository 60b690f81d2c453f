/** Failure-carrying return values, standing in for the exceptions and
    `None` returns of the modelled Python code. */
module Wrappers {

  /** Either a value or nothing, as a Python `Optional`. */
  datatype Option<+T> = None | Some(value: T)

  /** Either a value or the error that the source would have raised. */
  datatype Result<+T, +E> = Success(value: T) | Failure(error: E)
}
