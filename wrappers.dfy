/** Optional values (JavaScript `null`/`undefined`) and thrown errors (an `Error` with its message). */
module Wrappers {

  /** `None` stands for `null` or `undefined`. */
  datatype Option<+T> = None | Some(value: T) {

    /** The nullish-coalescing operator: `this ?? default`. */
    function GetOr(default: T): T {
      match this
      case Some(v) => v
      case None => default
    }
  }

  /** A computation that either produces a value or throws an `Error` carrying `message`. */
  datatype Result<+T> = Ok(value: T) | Err(message: string)
}
