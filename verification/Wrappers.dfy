/** Stock wrapper types used where the source returns a nil-able value. */
module Wrappers {
  datatype Option<+T> = None | Some(value: T)
}
