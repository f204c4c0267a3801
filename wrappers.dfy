/** The optional value used for "no turn" and "no send attempted". */
module Wrappers {
  datatype Option<T> = None | Some(value: T)
}
