/** The optional value used for "no command" and "no answer". */
module Wrappers {
  datatype Option<T> = None | Some(value: T)
}
