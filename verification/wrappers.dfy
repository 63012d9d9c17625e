/** An optional value, used for inputs that may be missing or not a number. */
module Wrappers {
  datatype Option<+T> = None | Some(value: T)
}
