/**
 * The nullable values of the system (`T | null`, an optional field, a lookup
 * that may miss) and the outcome of a step that may fail with a message.
 */
module Wrappers {

  datatype Option<+T> = None | Some(value: T) {

    /** `x ?? default` */
    function GetOr(default: T): T {
      match this
      case Some(v) => v
      case None => default
    }
  }

  /** A value, or the message of the error that was thrown instead. */
  datatype Result<+T> = Ok(value: T) | Failure(message: string)
}
