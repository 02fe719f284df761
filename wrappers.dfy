/** An optional value, as used for a timer handle that may not exist yet. */
module Wrappers {
  datatype Option<T> = None | Some(value: T)
}
