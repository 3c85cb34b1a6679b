/** Failure-compatible wrappers used by the parsers and lookups of the proxy model. */
module Wrappers {

  datatype Option<+T> = None | Some(value: T)

  datatype Result<+R, +E> = Success(value: R) | Failure(error: E)
}
