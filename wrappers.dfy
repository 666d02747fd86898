/** Optional values: a JavaScript field that may be `undefined` or an empty `{}`. */
module Wrappers {

  datatype Option<+T> = None | Some(value: T)
}
