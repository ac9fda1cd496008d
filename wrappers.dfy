/** Failure-carrying values shared by the other modules. */
module Wrappers {

  datatype Option<+T> = None | Some(value: T)

  /** A computation that either yields a value or raises the error `error`. */
  datatype Result<+T, +E> = Success(value: T) | Failure(error: E)
}
