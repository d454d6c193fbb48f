/** Optional values and fallible results, as the launcher's TypeScript uses
    `undefined`/`null` and thrown errors. */
module Wrappers {

  datatype Option<+T> = None | Some(value: T) {
    /** `x || fallback` / `x ?? fallback` on an optional value */
    function GetOr(fallback: T): T {
      match this
      case Some(v) => v
      case None => fallback
    }
  }

  /** A settled promise: fulfilled with a value, or rejected with the error's text. */
  datatype Result<+T> = Ok(value: T) | Err(error: string)
}
