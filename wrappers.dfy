/** The optional-value and outcome datatypes shared by the whole model. */
module Wrappers {

  /** A value that may be absent: JavaScript's `null`/missing key. */
  datatype Option<+T> = None | Some(value: T)

  /** The outcome of an operation that can be rejected. */
  datatype Result<+R, +E> = Success(value: R) | Failure(error: E)
}
