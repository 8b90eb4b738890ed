/** The optional value used for absent storage entries and unrecorded times. */
module Wrappers {
  datatype Option<+T> = None | Some(value: T)
}
