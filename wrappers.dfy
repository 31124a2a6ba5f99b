/** Optional values, used where the firmware has "no value" (a missing file, no timeout). */
module Wrappers {
  datatype Option<+T> = None | Some(value: T)
}
