/** Failure-carrying results shared by every module: `Option` stands for a Go nil-able
    value or a `(value, ok)` pair, `Result` for a Go `(value, error)` pair. */
module Wrappers {

  datatype Option<+T> = None | Some(value: T)

  datatype Result<+T, +E> = Success(value: T) | Failure(error: E)
}
