/** Option and Result, shared by every module of the model. */
module Wrappers {

  /** Ruby's `nil` versus a present value. */
  datatype Option<+T> = None | Some(value: T)

  /** A call that either returns `value` or raises `error`. */
  datatype Result<+T, +E> = Ok(value: T) | Err(error: E)
}
