/** The absent-or-present value used where the source has `undefined`/`null`. */
module Wrappers {
  datatype Option<+T> = None | Some(value: T)
}
