/** Option and Result, the two failure-compatible wrappers the model uses
    for Python's `None` and for "returns a value or raises". */
module Wrappers {

  datatype Option<+T> = None | Some(value: T)

  datatype Result<+R, +E> = Success(value: R) | Failure(error: E)
}
