/** The optional value used where the program leaves a field undefined. */
module Wrappers {
  datatype Option<T> = None | Some(value: T)
}
