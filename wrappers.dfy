/** Option and Result, the stand-ins for JavaScript's missing values and for
    promises that either resolve or reject. */
module Wrappers {

  datatype Option<+T> = None | Some(value: T)

  /** The outcome of an awaited request: the resolved value or the rejection. */
  datatype Result<+R, +E> = Ok(value: R) | Err(error: E)
}
