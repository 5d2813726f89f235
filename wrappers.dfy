/** Optional values and results with an error, used in place of JavaScript's
    `undefined`/`null` and of thrown exceptions. */
module Wrappers {

  datatype Option<+T> = None | Some(value: T)

  datatype Result<+R, +E> = Success(value: R) | Failure(error: E)
}
