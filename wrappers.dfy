/** Option and Result, the usual failure-carrying wrappers. */
module Wrappers {

  datatype Option<+T> = None | Some(value: T)

  /** `Failure` stands for a raised exception, `Success` for a normal return. */
  datatype Result<+T, +E> = Success(value: T) | Failure(error: E)

  /** A step that returns nothing on success (Python's `None`) or raises. */
  datatype Outcome<+E> = Pass | Fail(error: E)
}
