/** The conventional optional value, used for the parts of a view that may be absent. */
module Wrappers {
  datatype Option<+T> = None | Some(value: T)
}
