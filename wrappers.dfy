/** The optional value used where the source has `null`, `undefined` or a
    value that may be missing. */
module Wrappers {

  datatype Option<+T> = None | Some(value: T)
}
