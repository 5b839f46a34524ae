/** Option and Result: the shapes the model uses for Go's nil pointers and its (value, error) pairs. */
module Wrappers {

  /** A value that may be absent, such as a nil pointer. */
  datatype Option<+T> = None | Some(value: T)

  /** A value, or the error that was returned instead of it. */
  datatype Result<+T, +E> = Ok(value: T) | Err(error: E)
}
