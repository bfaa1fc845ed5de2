/** Option and Result, used for JavaScript's `undefined` and for schema outcomes. */
module Wrappers {

  /** `None` stands for JavaScript's `undefined` (an absent value). */
  datatype Option<+T> = None | Some(value: T) {

    /** The value, or `default` when absent (JavaScript's `x ?? default`). */
    function GetOr(default: T): T {
      match this
      case Some(v) => v
      case None => default
    }
  }

  /** The outcome of a parse: the typed value, or the list of issues found. */
  datatype Result<+R, +E> = Ok(value: R) | Err(error: E)
}
