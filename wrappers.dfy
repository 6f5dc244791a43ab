/** Small helper types shared by the other modules. */
module Wrappers {

  /** A value that may be absent: a null pointer, a missing map entry. */
  datatype Option<+T> = None | Some(value: T)
}
