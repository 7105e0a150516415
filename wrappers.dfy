/** Optional values and results with an error, as the handlers' `T?` and thrown `Abort`s. */
module Wrappers {

  datatype Option<+T> = None | Some(value: T)

  datatype Result<+T, +E> = Ok(value: T) | Err(error: E)
}
