/** Nullable values of the source, as an explicit Some/None datatype. */
module Wrappers {

  /** `T?` in the source: either nothing (null) or a value. */
  datatype Option<+T> = None | Some(value: T)
}
