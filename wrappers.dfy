/** Option and Result, the two failure-compatible shapes the rest of the model uses. */
module Wrappers {

  datatype Option<+T> = None | Some(value: T)

  /** The outcome of a call that either yields a value or throws an error with a message. */
  datatype Result<+R, +E> = Success(value: R) | Failure(error: E)
}
