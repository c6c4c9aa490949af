/** Rust's `Option<T>`, shared by the other modules. */
module Wrappers {

  /** An optional value, as Rust's `Option<T>`. */
  datatype Option<+T> = None | Some(value: T)
}
