/** The optional value shared by the loader and the viewer registry. */
module Wrappers {
  datatype Option<T> = None | Some(value: T)
}
