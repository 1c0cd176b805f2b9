/** Option and Result: the success/failure values that stand in for the
    source's exceptions, early returns and optional dictionary keys. */
module Wrappers {

  datatype Option<+T> = None | Some(value: T)

  datatype Result<+R, +E> = Success(value: R) | Failure(error: E)
}
