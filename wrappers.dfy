/** The optional-value datatype used for the calculator's optional modifier. */
module Wrappers {

  datatype Option<+T> = None | Some(value: T)
}
