/** The optional value of JavaScript's `T | null` and of `Array.prototype.find`. */
module Wrappers {
  datatype Option<T> = None | Some(value: T)
}
