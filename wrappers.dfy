/** Option and Result, the two failure-carrying shapes the model needs:
    an Option stands for a Go pointer that may be nil, a Result for a
    Go `(value, error)` pair. */
module Wrappers {

  datatype Option<+T> = None | Some(value: T)

  datatype Result<+R, +E> = Success(value: R) | Failure(error: E)
}
