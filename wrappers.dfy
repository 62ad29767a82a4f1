/** Optional values: JavaScript's `undefined`, `null` and `NaN` all become `None`. */
module Wrappers {

  datatype Option<+T> = None | Some(value: T)
}
