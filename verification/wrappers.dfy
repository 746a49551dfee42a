/** The optional-value datatype used by the keymap model. */
module Wrappers {

  datatype Option<+T> = None | Some(value: T)
}
