/** Option and Result, used for Python's `None` arguments and for the
    exception that loading a table without columns raises. */
module Wrappers {
  datatype Option<+T> = None | Some(value: T)

  datatype Result<+R, +E> = Success(value: R) | Failure(error: E)
}
