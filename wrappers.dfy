/** The optional value used wherever the application has `null`/`undefined`. */
module Wrappers {
  datatype Option<+T> = None | Some(value: T)
}
