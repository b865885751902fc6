/** The optional-value datatype used for nullable and optional fields. */
module Wrappers {

  datatype Option<+T> = None | Some(value: T)
}
