/** Failure-carrying wrappers used throughout the model: a Python call either
    returns a value or raises, and the raise is the `Err` case. */
module Wrappers {

  datatype Option<+T> = None | Some(value: T)

  datatype Result<+T, +E> = Ok(value: T) | Err(error: E)
}
