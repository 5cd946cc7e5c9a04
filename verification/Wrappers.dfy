/** An optional value: a field or result the source leaves `undefined` or `null`. */
module Wrappers {
  datatype Option<+T> = None | Some(value: T)
}
