/** Optional values, standing for TypeScript's `T | null` / `field?: T` and Python's `None`. */
module Wrappers {
  datatype Option<+T> = None | Some(value: T)
}
