/** Option and Result values for absent values and error returns. */
module Wrappers {

  datatype Option<+T> = None | Some(value: T)

  /** A Go `(value, error)` pair or a thrown JavaScript error: exactly one side is present. */
  datatype Result<+R, +E> = Success(value: R) | Failure(error: E)
}
