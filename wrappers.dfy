/** The optional value used wherever the source can raise on a missing byte. */
module Wrappers {
  datatype Option<+T> = None | Some(value: T)
}
