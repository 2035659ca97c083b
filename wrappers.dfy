/// Option, the failure-carrying shape the emulator uses (Rust's `Option<T>`).
module Wrappers {
  datatype Option<+T> = None | Some(value: T) {
    /// Rust's `unwrap_or`: the carried value, or `default` for None.
    function UnwrapOr(default: T): T {
      match this
      case Some(v) => v
      case None => default
    }
  }
}
