/** Failure-compatible wrappers shared by every module of the model. */
module Wrappers {

  /** A value that may be absent: the model of `null` / `undefined`. */
  datatype Option<+T> = None | Some(value: T)

  /** The outcome of a call that may throw: `Failure` stands for the exception. */
  datatype Result<+R, +E> = Success(value: R) | Failure(error: E)
}
