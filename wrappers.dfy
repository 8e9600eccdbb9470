/** Optional values (Go's nil pointers and nil maps) and results (Go's `(value, err)` pairs). */
module Wrappers {

  datatype Option<+T> = None | Some(value: T)

  datatype Result<+T, +E> = Success(value: T) | Failure(error: E)
}
