/** Option and Result values for the Go code's nil results and error returns. */
module Wrappers {
  datatype Option<T> = None | Some(value: T)

  /** A Go `(value, error)` pair: exactly one of the two is meaningful. */
  datatype Result<T> = Ok(value: T) | Err(error: string)
  {
    predicate IsFailure() { Err? }
  }
}
