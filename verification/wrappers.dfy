/** The absent-or-present value used for the library's nullable fields and optional arguments. */
module Wrappers {

  datatype Option<+T> = None | Some(value: T)
}
