/** Failure-compatible wrappers shared by the rest of the model: `Option` for
    the Python functions that fall off their end and return `None`, `Result`
    for operations that either produce a value or raise. */
module Wrappers {

  datatype Option<+T> = None | Some(value: T)

  datatype Result<+T, +E> = Success(value: T) | Failure(error: E)
}
