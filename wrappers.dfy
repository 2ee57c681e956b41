/** The usual optional value: `None` stands for an absent result. */
module Wrappers {
  datatype Option<+T> = None | Some(value: T)
}
