/** Optional values: JavaScript's `null` (and `NaN` for numeric parses). */
module Wrappers {
  datatype Option<+T> = None | Some(value: T)
}
