/** Optional values: JavaScript's `null`/`undefined` (and, for numbers, a non-finite value). */
module Wrappers {

  datatype Option<+T> = None | Some(value: T)
}
