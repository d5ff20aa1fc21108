/** Optional values, used where the storefront gets `undefined` or `null`. */
module Wrappers {

  datatype Option<+T> = None | Some(value: T)
}
