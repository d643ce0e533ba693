/** The optional value used for dictionary keys that a record may lack. */
module Wrappers {
  datatype Option<+T> = None | Some(value: T)
}
