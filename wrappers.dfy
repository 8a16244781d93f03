/** Optional values: used for the tri-state view of a permission table entry
    (no entry / explicit allow / explicit deny). */
module Wrappers {
  datatype Option<+T> = None | Some(value: T)
}
