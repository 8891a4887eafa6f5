/** Optional values, as the shim's `undefined` and `null` results are modelled. */
module Wrappers {

  datatype Option<+T> = None | Some(value: T)
}
