/** The optional value used by the Rust source (`Option<T>`). */
module Wrappers {
  datatype Option<+T> = None | Some(value: T)
}
