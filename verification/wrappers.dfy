/** The optional value used for form fields, sessions and string splits. */
module Wrappers {

  datatype Option<+T> = None | Some(value: T)
}
