/** The absent-or-present value used wherever the bot reads something that may be `undefined`. */
module Wrappers {
  datatype Option<T> = None | Some(value: T)
}
