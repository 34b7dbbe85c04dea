/** The Some/None wrapper used for "found or not found" and for JavaScript's `undefined`. */
module Wrappers {

  datatype Option<+T> = None | Some(value: T)
}
