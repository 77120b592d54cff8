/** Option and Result, the two failure-carrying datatypes used across the model. */
module Wrappers {

  datatype Option<+T> = None | Some(value: T)

  /** A computation that either produced a value or failed with an error value
      (a raised exception, in the terms of the modelled program). */
  datatype Result<+R, +E> = Success(value: R) | Failure(error: E)
}
