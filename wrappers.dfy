/** Optional values and success-or-error values, used wherever the source has
    `undefined`/`null` or throws. */
module Wrappers {
  datatype Option<+T> = None | Some(value: T)

  datatype Result<+T, +E> = Success(value: T) | Failure(error: E)
}
