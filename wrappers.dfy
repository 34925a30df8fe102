/** The absent-or-present value used throughout the model (a nullable field,
    `Array.prototype.find`'s result, an optional record field). */
module Wrappers {
  datatype Option<T> = None | Some(value: T)
}
