/** Optional values: a PHP `null` or `false` against a present value. */
module Wrappers {

  datatype Option<+T> = None | Some(value: T)
}
