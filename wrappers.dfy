/** Failure-compatible wrappers shared by the other modules. */
module Wrappers {

  /** A value that may be missing: a NaN cell, an absent key, an unknown name. */
  datatype Option<+T> = None | Some(value: T)

  /** The outcome of an operation that may raise. */
  datatype Result<+R, +E> = Success(value: R) | Failure(error: E)
}
