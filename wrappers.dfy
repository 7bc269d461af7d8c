/** A value that may be absent: Java's `null` for strings and objects. */
module Wrappers {
  datatype Option<T> = None | Some(value: T)
}
