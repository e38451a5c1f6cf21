/** Option and Result: the null-or-value fields and the value-or-exception
    returns of the advisor builder. */
module Wrappers {

  /** A value that may be absent (a Java reference that may be null). */
  datatype Option<+T> = None | Some(value: T)

  /** Either a normal return value or the exception the call throws. */
  datatype Result<+T, +E> = Ok(value: T) | Err(error: E)
}
