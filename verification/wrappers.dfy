/** Failure-compatible wrappers used throughout the model: `Option` stands for a
    JavaScript value that may be `null`/`undefined`, `Result` for a handler that
    either returns a value or throws an HTTP error. */
module Wrappers {

  /** A value that may be absent (`null` or `undefined` in JavaScript). */
  datatype Option<+T> = None | Some(value: T)

  /** Either a successful value or an error value. */
  datatype Result<+R, +E> = Success(value: R) | Failure(error: E)
}
