/** The optional value used for JavaScript's null / undefined fields. */
module Wrappers {

  datatype Option<+T> = None | Some(value: T)
}
