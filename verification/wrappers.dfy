/** Failure-compatible wrappers shared by the service modules. */
module Wrappers {

  /** A value that may be absent (the source's `undefined` / `null`). */
  datatype Option<+T> = None | Some(value: T)

  /** Either a value or the error the source would throw. */
  datatype Result<+R, +E> = Success(value: R) | Failure(error: E)
}
