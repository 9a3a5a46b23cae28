/** Option and Result: the two shapes used for JavaScript's `null`/`undefined`
    and for a call that either returns a value or throws. */
module Wrappers {

  datatype Option<+T> = None | Some(value: T)

  datatype Result<+T, +E> = Success(value: T) | Failure(error: E)
}
