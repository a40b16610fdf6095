/** A value that may be absent: a missing file, a missing field, an observation that failed. */
module Wrappers {
  datatype Option<+T> = None | Some(value: T)
}
