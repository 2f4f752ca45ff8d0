/** Optional values and results with an error, shared by every module of the model. */
module Wrappers {

  /** A value that may be absent (a Go nil pointer, a missing map entry, a Python None). */
  datatype Option<+T> = None | Some(value: T)

  /** The outcome of an operation that can fail with an error of type E. */
  datatype Result<+T, +E> = Ok(value: T) | Err(error: E)
}
