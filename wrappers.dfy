/** Option and Result, the shapes of Go's nil-able values and (value, error) returns. */
module Wrappers {

  datatype Option<+T> = None | Some(value: T)

  /** A Go result pair: a value with a nil error, or an error (its message). */
  datatype Result<+T> = Ok(value: T) | Err(error: string)
}
