/** The optional-value datatype used for nullable C pointers and handles. */
module Wrappers {

  datatype Option<+T> = None | Some(value: T)
}
