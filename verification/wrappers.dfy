/** Optional values and fallible results, standing in for JavaScript's
    `null` and for rejected promises. */
module Wrappers {

  datatype Option<+T> = None | Some(value: T)

  datatype Result<+T, +E> = Success(value: T) | Failure(error: E)
}
