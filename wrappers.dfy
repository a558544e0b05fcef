/** Optional values and results with an error, as used by the page handlers. */
module Wrappers {

  /** A value that may be absent: `null` in the pages, or a parse that gave NaN. */
  datatype Option<+T> = None | Some(value: T)

  /** The outcome of a handler that can refuse its input. */
  datatype Result<+T, +E> = Ok(value: T) | Err(error: E)
}
