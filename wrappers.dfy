/** Optional values and results with an error, used wherever the source returns None or raises. */
module Wrappers {

  /** A value that may be absent (Python's None). */
  datatype Option<+T> = None | Some(value: T)

  /** Either a value, or the error the source raises instead of returning one. */
  datatype Result<+T, +E> = Ok(value: T) | Err(error: E)
}
