/** Option and Result, the two failure-carrying datatypes the model uses. */
module Wrappers {

  /** `None` stands for Python's `None` and, for float columns, for NaN. */
  datatype Option<+T> = None | Some(value: T)

  /** `Failure` stands for an exception the source raises. */
  datatype Result<+T, +E> = Success(value: T) | Failure(error: E)
}
