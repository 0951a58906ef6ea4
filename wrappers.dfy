/** The optional-value datatype shared by the scene modules. */
module Wrappers {

  datatype Option<+T> = None | Some(value: T)
}
