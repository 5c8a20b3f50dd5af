/** Optional values and results that carry either a value or an error. */
module Wrappers {

  /** A value that may be absent, used where the client holds PHP `null`. */
  datatype Option<+T> = None | Some(value: T)

  /** The outcome of an operation that either returns or throws. */
  datatype Result<+T, +E> = Ok(value: T) | Err(error: E)
}
