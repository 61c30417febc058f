/** Option and Result values shared by every module (Go's nil pointers and (value, error) pairs). */
module Wrappers {
  datatype Option<+T> = None | Some(value: T)

  datatype Result<+T, +E> = Ok(value: T) | Err(error: E)
}
