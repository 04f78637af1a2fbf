/** The optional value used for the nullable fields of the rows (Rust's `Option`). */
module Wrappers {
  datatype Option<+T> = None | Some(value: T)
}
