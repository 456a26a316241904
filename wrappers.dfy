/** Option and Result, the two failure-carrying shapes the model uses. */
module Wrappers {

  /** A value that may be missing: a dictionary key that is absent, an input that was rejected. */
  datatype Option<+T> = None | Some(value: T)

  /** The outcome of an operation that the program would abort with an exception. */
  datatype Result<+R, +E> = Success(value: R) | Failure(error: E)
}
