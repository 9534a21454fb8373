/** Option and Result, used where the Python code returns None or raises. */
module Wrappers {
  datatype Option<T> = None | Some(value: T)

  /** A computation that either produced a value or raised an exception with the given message. */
  datatype Result<T> = Success(value: T) | Failure(error: string)
}
