module Wrappers {
  /** A value the program may not have: a nil pointer, an absent key, an unset time. */
  datatype Option<+T> = None | Some(value: T)
}
