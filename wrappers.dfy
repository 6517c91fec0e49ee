/** The optional value the source writes as `null` or "not set yet". */
module Wrappers {
  datatype Option<+T> = None | Some(value: T)
}
