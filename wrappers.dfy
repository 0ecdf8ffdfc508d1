/** Small failure-compatible wrappers shared by the model. */
module Wrappers {

  /** A value that may be missing (JavaScript `undefined`, or a falsy option). */
  datatype Option<+T> = None | Some(value: T) {
    function GetOr(default: T): T {
      match this
      case Some(v) => v
      case None => default
    }
  }

  /** The outcome of a host call that either returns a value or throws. */
  datatype Outcome<+T> = Ok(value: T) | Thrown(message: string)
}
