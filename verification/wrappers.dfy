/** Failure-carrying values shared by every module: JavaScript's `null`/`undefined`
    and Python's `None` become `None`; a raised exception or an `Alert` error path
    becomes `Err`. */
module Wrappers {

  datatype Option<+T> = None | Some(value: T) {
    /** `value` when present, `default` otherwise (JavaScript `x || d`, Python `d.get(k, d)`). */
    function GetOr(default: T): T {
      match this
      case Some(v) => v
      case None => default
    }
  }

  datatype Result<+T, +E> = Ok(value: T) | Err(error: E)
}
