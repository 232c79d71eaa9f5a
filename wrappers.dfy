/** The optional value returned by `Array.prototype.find`. */
module Wrappers {
  datatype Option<+T> = None | Some(value: T)
}
