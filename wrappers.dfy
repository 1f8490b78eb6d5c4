/** Success/failure and optional values: the model's stand-ins for Go's `(T, error)` returns
    and for values that may be nil. */
module Wrappers {

  datatype Option<+T> = None | Some(value: T)

  datatype Result<+T, +E> = Success(value: T) | Failure(error: E)
}
