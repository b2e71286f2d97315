/** The optional value used wherever the source has an `Option` or discards an error with `.ok()`. */
module Wrappers {

  datatype Option<+T> = None | Some(value: T)
}
