/** Option and Result, the shapes the model uses for C# nulls and exceptions
    and for Rust's `Option` and `Result`. */
module Wrappers {

  datatype Option<+T> = None | Some(value: T) {
    function GetOr(default: T): (r: T) {
      match this
      case Some(v) => v
      case None => default
    }
  }

  datatype Result<+R, +E> = Ok(value: R) | Err(error: E) {
    function GetOr(default: R): (r: R) {
      match this
      case Ok(v) => v
      case Err(_) => default
    }
  }
}
