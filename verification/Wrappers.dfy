// The one optional-value type every module shares.
module Wrappers {
  datatype Option<+T> = None | Some(value: T)
}
