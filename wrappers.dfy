/** A value that may be missing: the result of looking a key up in a JavaScript object literal. */
module Wrappers {
  datatype Option<T> = None | Some(value: T)
}
