/** Option and Result, the model's stand-ins for Go's nil pointers and
    `(value, error)` returns. An error is represented by its message, the
    text that `err.Error()` would produce. */
module Wrappers {

  datatype Option<+T> = None | Some(value: T)

  datatype Result<+T> = Ok(value: T) | Err(error: string)
}
