/** Option, Result and Outcome, for lookups that can miss and operations that can fail. */
module Wrappers {

  datatype Option<+T> = None | Some(value: T)

  datatype Result<+R, +E> = Success(value: R) | Failure(error: E)

  /** The result of a step that returns nothing but may raise. */
  datatype Outcome<+E> = Pass | Fail(error: E)
}
