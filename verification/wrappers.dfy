/** Failure-carrying datatypes shared by the whole model. */
module Wrappers {

  /** A value that may be absent (Python's `None`, or a missing key). */
  datatype Option<+T> = None | Some(value: T)

  /** A computation that either produced a value or raised an error. */
  datatype Result<+T, +E> = Ok(value: T) | Err(error: E)
}
