/** The optional value used for "set or unset" state throughout the model. */
module Wrappers {
  datatype Option<+T> = None | Some(value: T)
}
