/** Failure-carrying results: the model's stand-in for Python's `None` results and raised exceptions. */
module Wrappers {

  datatype Option<+T> = None | Some(value: T)

  /** The outcome of an operation that either yields a value or raises an error. */
  datatype Result<+R, +E> = Success(value: R) | Failure(error: E)

  /** The outcome of an operation that returns nothing on success (a Python `-> None`). */
  datatype Outcome<+E> = Pass | Fail(error: E)
}
