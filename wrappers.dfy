/** Wrappers: the optional value used for fields that a booking record may lack. */
module Wrappers {
  datatype Option<+T> = None | Some(value: T)
}
