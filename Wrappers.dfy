/** The absent-or-present value used for the application's nullable refs and optional fields. */
module Wrappers {

  datatype Option<+T> = None | Some(value: T)
}
