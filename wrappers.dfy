/** The optional-value type shared by the modules of this project. */
module Wrappers {

  datatype Option<+T> = None | Some(value: T)
}
