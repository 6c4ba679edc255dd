/** Python's `None`-or-value, as an option type. */
module Wrappers {

  datatype Option<+T> = None | Some(value: T)
}
