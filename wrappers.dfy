/** Optional values: the model's stand-in for JavaScript's `null` / `undefined`
    and for values whose `typeof` is not `'number'`. */
module Wrappers {

  datatype Option<+T> = None | Some(value: T)
}
