/** Option and Result, used for PHP's null and for the exceptions the HTTP transport throws. */
module Wrappers {

  datatype Option<+T> = None | Some(value: T)

  datatype Result<+T, +E> = Success(value: T) | Failure(error: E)
}
