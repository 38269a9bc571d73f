/** The optional value used for "no hand in this frame" and for readings that may fail. */
module Wrappers {
  datatype Option<+T> = None | Some(value: T)
}
