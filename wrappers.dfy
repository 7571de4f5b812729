/** A value that may be absent: an optional field or `undefined`. */
module Wrappers {
  datatype Option<T> = None | Some(value: T)
}
