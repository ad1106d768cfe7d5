/** Failure-carrying results, used where the Python code raises an exception (`_create_provider`). */
module Wrappers {

  datatype Option<+T> = None | Some(value: T)

  datatype Result<+T, +E> = Success(value: T) | Failure(error: E)
}
