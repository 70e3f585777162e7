/** An optional value: a pointer that may be null, a field that may be missing. */
module Wrappers {
  datatype Option<+T> = None | Some(value: T)
}
