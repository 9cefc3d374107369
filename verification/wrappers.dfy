/** An optional value and a value-or-error pair, shared by the resolver's modules. */
module Wrappers {

  datatype Option<+T> = None | Some(value: T)

  /** A value or the error that stopped its construction (Go's `(value, error)` pair). */
  datatype Result<+T, +E> = Success(value: T) | Failure(error: E)
}
