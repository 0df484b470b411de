/** The optional value used wherever the page may or may not have something. */
module Wrappers {

  datatype Option<+T> = None | Some(value: T)

}
