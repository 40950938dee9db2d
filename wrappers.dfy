/** Option and Result values used for Go's nil pointers and its
    (value, diagnostic) return pairs. */
module Wrappers {

  datatype Option<+T> = None | Some(value: T)

  datatype Result<+T, +E> = Success(value: T) | Failure(error: E)
}
