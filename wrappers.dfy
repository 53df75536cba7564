/** Wrappers used across the model: an optional value (JavaScript
    `undefined`/`null` versus a value) and a result that is either a value or
    a thrown error message. */
module Wrappers {

  datatype Option<+T> = None | Some(value: T) {
    function GetOr(default: T): T {
      match this
      case Some(v) => v
      case None => default
    }
  }

  datatype Result<+T> = Ok(value: T) | Err(error: string)
}
