/** The optional value used for the window's "suppressed slot". */
module Wrappers {

  datatype Option<+T> = None | Some(value: T)
}
