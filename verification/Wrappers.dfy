/** The usual Option datatype, for values the source leaves `undefined` or `null`. */
module Wrappers {
  datatype Option<+T> = None | Some(value: T)
}
