/** The optional value used wherever the source may find nothing (no authenticated user, no row with a slug). */
module Wrappers {
  datatype Option<+T> = None | Some(value: T)
}
