/** Optional values (JavaScript's `null`, and `NaN` for parsed numbers) and
    the outcome of a call that may throw. */
module Wrappers {

  datatype Option<+T> = None | Some(value: T)

  datatype Result<+R, +E> = Success(value: R) | Failure(error: E)
}
