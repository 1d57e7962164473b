/** The optional value used wherever the modelled code returns a "none" value or throws. */
module Wrappers {
  datatype Option<+T> = None | Some(value: T)
}
