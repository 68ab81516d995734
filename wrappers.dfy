/** Option and Result: the model's stand-ins for `undefined`/`null` and for
    JavaScript functions that either return a value or throw. */
module Wrappers {

  datatype Option<+T> = None | Some(value: T)

  datatype Result<+T, +E> = Success(value: T) | Failure(error: E)
}
