/** Option and Result, the stand-ins for Python's `None` and for a raised exception. */
module Wrappers {

  datatype Option<+T> = None | Some(value: T)

  /** `Err` carries the text that `str(e)` gives for the exception the Python code raises. */
  datatype Result<+T> = Ok(value: T) | Err(error: string)
}
