/** Optional values and results with an error, as used throughout the model. */
module Wrappers {

  datatype Option<+T> = None | Some(value: T)

  /** The outcome of an operation that can raise: `Ok` carries the value, `Err` the exception. */
  datatype Result<+T, +E> = Ok(value: T) | Err(error: E)

}
