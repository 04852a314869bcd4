/** Optional values and results with an error: Python's `None` and raised exceptions
    become `Option` and `Result` values. */
module Wrappers {

  datatype Option<+T> = None | Some(value: T)

  datatype Result<+R, +E> = Success(value: R) | Failure(error: E)
}
