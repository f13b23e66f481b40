/** Failure-carrying values shared by every module: a JavaScript value that may be
    `undefined`, and a call that either returns or throws an `Error` with a message. */
module Wrappers {

  datatype Option<+T> = None | Some(value: T) {
    function GetOr(default: T): T {
      match this
      case Some(v) => v
      case None => default
    }
  }

  /** `Err(message)` stands for a thrown `Error` whose `.message` is `message`. */
  datatype Result<+T> = Ok(value: T) | Err(message: string)
}
