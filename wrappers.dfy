/** Python's `None`-or-value, shared by the animation and mesh modules. */
module Wrappers {
  datatype Option<+T> = None | Some(value: T)
}
