/** Option, Result and Outcome: the values that stand for Java's null references and exceptions. */
module Wrappers {

  /** A reference that may be null. */
  datatype Option<+T> = None | Some(value: T)

  /** A call that either returns a value or throws. */
  datatype Result<+R, +E> = Success(value: R) | Failure(error: E)

  /** A void call that either completes or throws. */
  datatype Outcome<+E> = Pass | Fail(error: E)
}
