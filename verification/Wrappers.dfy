/** A value that may be missing, as a nil pointer or an absent result is. */
module Wrappers {
  datatype Option<T> = None | Some(value: T)
}
