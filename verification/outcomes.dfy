/** Small failure-carrying datatypes shared by the rest of the model. */
module Outcomes {

  /** A value that may be absent, as a Go pointer or error that may be nil. */
  datatype Option<+T> = None | Some(value: T)

  /** A Go `(value, error)` pair: either a value or the error that replaced it. */
  datatype Result<+T, +E> = Ok(value: T) | Err(error: E)
}
