/** Option and Result, used for Python's `None` values and raised exceptions. */
module Wrappers {

  datatype Option<+T> = None | Some(value: T)

  /** `Ok` is a normal return, `Err` an exception the Python code raises. */
  datatype Result<+T, +E> = Ok(value: T) | Err(error: E)
}
