/** Option, Result and Outcome wrappers, and the byte type shared by the other modules. */
module Wrappers {

  /** A value that may be missing: Ruby's nil is None. */
  datatype Option<+T> = None | Some(value: T)

  /** The value of an expression, or the exception its evaluation raised. */
  datatype Result<+T, +E> = Success(value: T) | Failure(error: E)

  /** A step that either finishes or raises. */
  datatype Outcome<+E> = Pass | Fail(error: E)

  /** One octet of attachment content. */
  newtype byte = x: int | 0 <= x < 256
}
