/** The optional value used wherever PHP returns a string or `null`. */
module Wrappers {

  datatype Option<+T> = None | Some(value: T)
}
