/** A value that may be missing, for the nullable fields of the source. */
module Wrappers {
  datatype Option<T> = None | Some(value: T)
}
