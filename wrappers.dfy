/** The optional value used for `currentCredential` and for the result of `Array.prototype.find`. */
module Wrappers {
  datatype Option<+T> = None | Some(value: T)
}
