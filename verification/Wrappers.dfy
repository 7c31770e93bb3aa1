/** Optional values, standing for the nullable columns and the None results. */
module Wrappers {
  datatype Option<+T> = None | Some(value: T)
}
