/** Option and Result, the two failure-carrying value types the model uses. */
module Wrappers {

  /** A value that may be absent: `None` stands for JavaScript's `null` or `undefined`. */
  datatype Option<+T> = None | Some(value: T)

  /** The outcome of a computation that either returns a value or throws. */
  datatype Result<+R, +E> = Success(value: R) | Failure(error: E)
}
