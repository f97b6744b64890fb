/** An optional value, returned by parsers that may reject their input. */
module Wrappers {
  datatype Option<+T> = None | Some(value: T)
}
