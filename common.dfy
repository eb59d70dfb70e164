/** Shared vocabulary of the test-framework model: unsigned bytes and the two
    failure-compatible wrappers that stand for Rust's `Option` and `Result`. */
module Common {

  /** Rust's `u8`: a colour-channel sample or a per-channel difference. */
  type uint8 = x: int | 0 <= x < 256

  datatype Option<+T> = None | Some(value: T) {
    function GetOr(default: T): T {
      match this
      case Some(v) => v
      case None => default
    }
  }

  datatype Result<+T, +E> = Ok(value: T) | Err(error: E)
}
