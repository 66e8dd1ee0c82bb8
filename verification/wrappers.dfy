/** Wrappers used across the model: an optional value
    (a TypeScript `?:` field or a value that may be `undefined`) and the
    outcome of an operation that either succeeds or carries an error message. */
module Wrappers {

  datatype Option<+T> = None | Some(value: T)

  datatype Result<+R, +E> = Success(value: R) | Failure(error: E)
}
