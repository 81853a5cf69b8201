/** The optional value used wherever the source returns a null pointer or a
    value that may be missing. */
module Wrappers {

  datatype Option<T> = None | Some(value: T)
}
