/** Optional values: JavaScript's `null`/`undefined` and a present value. */
module Wrappers {

  datatype Option<+T> = None | Some(value: T)
}
