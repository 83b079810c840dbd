/** The optional value used for Python's `Optional[...]` and for the `None` that a lookup returns. */
module Wrappers {

  datatype Option<+T> = None | Some(value: T)
}
