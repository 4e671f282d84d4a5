/** An optional value, for Python's `None` default arguments. */
module Wrappers {
  datatype Option<+T> = None | Some(value: T)
}
