/** The optional value used for Python's `Optional[...]` and for the empty-string
    "no classification" key. */
module Wrappers {
  datatype Option<+T> = None | Some(value: T)
}
