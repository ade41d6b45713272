/** Optional values and results with an error value, shared by every module. */
module Wrappers {

  datatype Option<+T> = None | Some(value: T)

  /** A computation that either yields a value or fails the way the Python
      code raises an exception. */
  datatype Result<+T, +E> = Ok(value: T) | Err(error: E)
}
