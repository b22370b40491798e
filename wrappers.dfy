/** Failure-compatible wrappers shared by the coordinate and the pipeline modules. */
module Wrappers {

  /** A value that may be absent: Python's `None` or an object. */
  datatype Option<+T> = None | Some(value: T)

  /** The outcome of an operation that raises on bad input. */
  datatype Result<+T, +E> = Ok(value: T) | Err(error: E)
}
