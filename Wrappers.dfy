/** Option and Result values standing in for Python's `None` and for raised errors. */
module Wrappers {

  /** A value that may be absent (`None` in Python). */
  datatype Option<+T> = None | Some(value: T)

  /** Either a value or the error that computing it raised. */
  datatype Result<+T, +E> = Success(value: T) | Failure(error: E)
}
