/** Optional values and results with an error, as used across the model. */
module Wrappers {

  /** A value that may be missing (`undefined` or `null` in the dashboard). */
  datatype Option<+T> = None | Some(value: T)

  /** The outcome of a computation that can fail with an error of type E. */
  datatype Result<+T, +E> = Ok(value: T) | Err(error: E)
}
