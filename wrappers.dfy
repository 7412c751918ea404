/** Python's `None`-or-value, as it appears in the detector's result and in query parameters. */
module Wrappers {
  datatype Option<+T> = None | Some(value: T)
}
