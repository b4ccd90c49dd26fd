/** The optional value used for partial conversions and for the field splitter. */
module Wrappers {
  datatype Option<+T> = None | Some(value: T)
}
