/** The optional value used for lookups that may find nothing (Python's None). */
module Wrappers {

  datatype Option<+T> = None | Some(value: T)
}
