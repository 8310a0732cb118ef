/** Optional values and results with an error, for the error paths the
    installer's code takes instead of raising exceptions. */
module Wrappers {

  datatype Option<+T> = None | Some(value: T)

  datatype Result<+T, +E> = Ok(value: T) | Err(error: E)
}
