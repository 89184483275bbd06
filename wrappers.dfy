/** Failure-carrying values: a Python call either returns a value or raises. */
module Wrappers {

  datatype Option<+T> = None | Some(value: T)

  /** `Ok(value)` is a normal return, `Err(error)` a raised exception. */
  datatype Result<+T, +E> = Ok(value: T) | Err(error: E)
}
