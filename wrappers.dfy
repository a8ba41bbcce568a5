/** Optional values and results with an error, shared by the other modules. */
module Wrappers {

  /** A value that may be absent (boost::optional, a null pointer, a missing row). */
  datatype Option<+T> = None | Some(value: T)

  /** The outcome of an operation that either succeeds or fails with an error. */
  datatype Result<+T, +E> = Ok(value: T) | Err(error: E)
}
