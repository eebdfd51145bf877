/** Python's `None`-or-value, used for every argument that may be absent or null. */
module Wrappers {

  datatype Option<+T> = None | Some(value: T)
}
