// Option and Result values used throughout the model: Go's `(T, error)`
// pairs become `Result<T, Error>`, and Go's nil-able values become `Option<T>`.
module Wrappers {

  datatype Option<+T> = None | Some(value: T)

  datatype Result<+T, +E> = Ok(value: T) | Err(error: E)
  {
    predicate IsFailure() { Err? }
  }
}
