/** The optional-value datatype shared by the other modules. */
module Wrappers {

  /** A value that may be absent: a missing header, query argument or JSON key,
      or JavaScript's `null`. */
  datatype Option<+T> = None | Some(value: T)
}
