/** The two result shapes the models share. */
module Wrappers {

  /** A value the source may leave as `None`. */
  datatype Option<+T> = None | Some(value: T)

  /** The outcome of an operation that either returns or raises. */
  datatype Result<+T, +E> = Ok(value: T) | Err(error: E)
}
