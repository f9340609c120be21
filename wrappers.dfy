/** Option and Result, the two failure-carrying shapes the model uses for Go's nil and error returns. */
module Wrappers {

  /** A value that may be absent: a nil pointer or a nil error. */
  datatype Option<+T> = None | Some(value: T)

  /** The result of an operation that returns either a value or an error. */
  datatype Result<+T, +E> = Ok(value: T) | Err(error: E)
}
