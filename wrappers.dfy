/** The optional value used for a missing link, a failed fetch and a regex that does not match. */
module Wrappers {
  datatype Option<+T> = None | Some(value: T)
}
