/** Failure-carrying values shared by every module of the model. */
module Wrappers {

  /** A value that may be absent: PHP's `null`, a missing array key, an unset JS property. */
  datatype Option<+T> = None | Some(value: T) {
    function GetOr(default: T): T {
      match this
      case Some(v) => v
      case None => default
    }
  }

  /** The result of an operation that either returns a value or throws with a message. */
  datatype Result<+T> = Success(value: T) | Failure(error: string)

  /** The result of an operation that returns nothing or throws with a message. */
  datatype Outcome = Pass | Fail(error: string)
}
