/** Failure-carrying wrappers used across the model: `Option` stands for a
    Java `null` / TypeScript `undefined`, `Result` for a call that either
    returns a value or raises an error with a message. */
module Wrappers {

  datatype Option<+T> = None | Some(value: T) {
    /** The value held, or `default` when there is none (`x ?? default`). */
    function GetOr(default: T): T {
      match this
      case Some(v) => v
      case None => default
    }
  }

  datatype Result<+T, +E> = Ok(value: T) | Err(error: E)
}
