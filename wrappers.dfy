/** Optional values: JavaScript's `null` / `undefined` and a validator's rejection. */
module Wrappers {

  datatype Option<+T> = None | Some(value: T)
}
