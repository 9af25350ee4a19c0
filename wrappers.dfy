/** The optional value used for "no template found" and for a missing JSON key. */
module Wrappers {

  datatype Option<+T> = None | Some(value: T)
}
