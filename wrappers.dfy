/** Option, used wherever the source has an optional value (`undefined`, `null`, a missing key). */
module Wrappers {
  datatype Option<+T> = None | Some(value: T)
}
