/** The optional value used wherever the page model reads an attribute that may be absent. */
module Wrappers {

  datatype Option<+T> = None | Some(value: T)
}
