/** Optional values and results with an error, shared by every module. */
module Wrappers {

  /** A value that may be absent: C# `T?`, Rust `Option<T>`, TypeScript `T | undefined`. */
  datatype Option<+T> = None | Some(value: T) {
    function GetOr(default: T): T {
      match this
      case Some(v) => v
      case None => default
    }
  }

  /** The outcome of an operation that either yields a value or fails with an error. */
  datatype Result<+R, +E> = Ok(value: R) | Err(error: E)
}
