/** Failure-carrying results shared by both converters. */
module Wrappers {

  datatype Option<+T> = None | Some(value: T)

  /** The outcome of an operation that either produces a value or aborts the run with an error. */
  datatype Result<+T, +E> = Ok(value: T) | Err(error: E)
}
