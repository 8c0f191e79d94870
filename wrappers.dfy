/** Failure-compatible values shared by every module: an optional value and a success-or-error value. */
module Wrappers {

  /** A JavaScript value that may be `undefined` / `null`, or a present value. */
  datatype Option<+T> = None | Some(value: T)

  /** The outcome of a step that may throw. */
  datatype Result<+R, +E> = Success(value: R) | Failure(error: E)
}
