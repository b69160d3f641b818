// Option and Result: the two shapes a Go `(value, error)` pair takes in this model.
module Wrappers {
  datatype Option<T> = None | Some(value: T)

  datatype Result<T, E> = Ok(value: T) | Err(error: E)
}
