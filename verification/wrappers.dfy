/** The `Option` and `Result` datatypes used throughout the model. */
module Wrappers {

  /** A value that may be absent: a missing field, a missing token, or a
      foreign parser that produced `NaN` / an invalid date. */
  datatype Option<+T> = None | Some(value: T)

  /** The outcome of a step that can be rejected with an error. */
  datatype Result<+T, +E> = Success(value: T) | Failure(error: E)
}
