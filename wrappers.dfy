/** Option and Result, used for the source's `None` values and raised errors. */
module Wrappers {

  datatype Option<+T> = None | Some(value: T) {

    /** The wrapped value, or `default` when there is none (Python's `dict.get(key, default)`). */
    function GetOr(default: T): T {
      match this
      case Some(v) => v
      case None => default
    }
  }

  /** A value, or the text of the error that was raised instead. */
  datatype Result<+T> = Ok(value: T) | Err(message: string)
}
