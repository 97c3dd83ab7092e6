/** Optional values and results with an error, as the handlers below return them. */
module Wrappers {

  datatype Option<+T> = None | Some(value: T)

  /** What a handler hands back: a value, or the error it throws (JavaScript) or returns (Go). */
  datatype Result<+T, +E> = Ok(value: T) | Err(error: E)
}
