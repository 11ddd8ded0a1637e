/** Option and Result: Rust's `Option<T>` and `anyhow::Result<T>` as Dafny values. */
module Wrappers {

  datatype Option<+T> = None | Some(value: T) {
    /** `unwrap_or`: the carried value, or `default` when there is none. */
    function GetOr(default: T): T {
      match this
      case Some(v) => v
      case None => default
    }
  }

  /** A fallible call: its value, or an error message. */
  datatype Result<+T> = Success(value: T) | Failure(error: string)
}
