/** A value that may be absent: SQL NULL, a missing dictionary key, a row not found. */
module Wrappers {
  datatype Option<+T> = None | Some(value: T)
}
