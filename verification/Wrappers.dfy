/** The optional value used throughout the model (Go's nil-able pointers and Python's None). */
module Wrappers {
  datatype Option<+T> = None | Some(value: T)
}
