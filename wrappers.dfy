/** Small helper datatypes shared by the other modules. */
module Wrappers {

  /** An optional value: a missing frame type, a node lookup that finds nothing. */
  datatype Option<+T> = None | Some(value: T)
}
