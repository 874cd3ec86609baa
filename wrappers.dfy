/** Failure-compatible result types shared by the bus and the aggregate. */
module Wrappers {

  datatype Option<+T> = None | Some(value: T)

  /** The value of an operation that may fail with an error of type E. */
  datatype Result<+T, +E> = Success(value: T) | Failure(error: E)

  /** The outcome of an operation that returns nothing but may fail. */
  datatype Outcome<+E> = Pass | Fail(error: E)
}
