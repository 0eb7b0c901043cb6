/** Optional values: `None` stands for Go's `nil` (an unset interface, map or error). */
module Wrappers {
  datatype Option<+T> = None | Some(value: T)
}
