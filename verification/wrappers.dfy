/** The optional value used wherever the PHP code reads something that may be missing. */
module Wrappers {

  datatype Option<+T> = None | Some(value: T)
}
