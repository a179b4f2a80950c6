/** Option and Result, the two failure-carrying values the rest of the model uses. */
module Wrappers {

  /** A value that may be absent: React state initialised to `null`. */
  datatype Option<+T> = None | Some(value: T)

  /** The outcome of a stage that may abort with an error kind. */
  datatype Result<+R, +E> = Success(value: R) | Failure(error: E)
}
