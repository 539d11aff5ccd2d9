/** Failure-compatible result types shared by every module of the model. */
module Wrappers {

  /** An optional value: Python's `Optional[T]`, `None` being `None`. */
  datatype Option<+T> = None | Some(value: T)

  /** The value of a call that either returns or raises. */
  datatype Result<+T, +E> = Success(value: T) | Failure(error: E)

  /** The outcome of a call that returns nothing useful but may raise. */
  datatype Outcome<+E> = Pass | Fail(error: E)
}
