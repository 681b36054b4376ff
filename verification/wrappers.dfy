/** Option and Result, the two failure-carrying datatypes the IBAN model uses. */
module Wrappers {

  /** A value that may be absent (a field that holds no IBAN). */
  datatype Option<+T> = None | Some(value: T)

  /** The outcome of an operation that either yields a value or fails with an error. */
  datatype Result<+R, +E> = Success(value: R) | Failure(error: E)
}
