/** Optional values and results with an error, as the Go code's `(value, error)`
    returns and JavaScript's `null`/`undefined` are modelled throughout. */
module Wrappers {

  datatype Option<+T> = None | Some(value: T)

  datatype Result<+T, +E> = Success(value: T) | Failure(error: E)
}
