/** The optional value that Go expresses as a `(value, ok bool)` pair. */
module Wrappers {
  datatype Option<+T> = None | Some(value: T)
}
