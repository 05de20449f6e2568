/** Option and Result: the error outcomes of the modelled services. */
module Wrappers {

  datatype Option<+T> = None | Some(value: T)

  datatype Result<+T, +E> = Success(value: T) | Failure(error: E)

  /** A result that carries no value: the operation either passed or failed with an error. */
  datatype Outcome<+E> = Pass | Fail(error: E)
}
