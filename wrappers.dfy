/** Option and Outcome, the two failure-carrying shapes the model uses. */
module Wrappers {

  /** A value that may be absent (`null` / `undefined` / `None` in the source). */
  datatype Option<+T> = None | Some(value: T)

  /** The result of an operation that either completes or raises an error carrying `error`. */
  datatype Outcome<+E> = Pass | Fail(error: E)

  /** A value or an error. */
  datatype Result<+R, +E> = Success(value: R) | Failure(error: E)
}
