/** The optional value used where the program may have nothing to return. */
module Wrappers {
  datatype Option<T> = None | Some(value: T)
}
