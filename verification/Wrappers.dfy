/** The value that may be missing: a nil pointer, a row that was not found, an id that is not valid. */
module Wrappers {
  datatype Option<+T> = None | Some(value: T)
}
