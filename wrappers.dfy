/** Failure-carrying values shared by every module of the model. */
module Wrappers {

  /** A value that may be absent (JavaScript `null` / `undefined`). */
  datatype Option<+T> = None | Some(value: T) {
    function GetOr(default: T): T {
      match this
      case Some(v) => v
      case None => default
    }
  }

  /** The answer of an external call: a value, or the message of the error it raised. */
  datatype Result<+T> = Ok(value: T) | Err(message: string)

  /**
   * How an asynchronous operation of the agent ended: it completed with a
   * value, or it threw (rejected) with an error message that propagates to
   * the caller.
   */
  datatype Outcome<+T> = Done(value: T) | Threw(message: string)
}
