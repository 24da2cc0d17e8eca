/** The optional value used for the wizard's nullable age field. */
module Wrappers {
  datatype Option<+T> = None | Some(value: T)
}
