/** The optional value that stands for an absent (`undefined` or `null`) field or argument. */
module Wrappers {
  datatype Option<+T> = None | Some(value: T)
}
