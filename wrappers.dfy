/** The optional value used where the source may produce NaN or leave a key out. */
module Wrappers {
  datatype Option<T> = None | Some(value: T)
}
