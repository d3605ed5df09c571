/** The optional value the player uses for "no song selected" (Python's `None`). */
module Wrappers {
  datatype Option<T> = None | Some(value: T)
}
