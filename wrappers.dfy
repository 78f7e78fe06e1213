/** Optional values: a JavaScript `undefined`-or-value. */
module Wrappers {

  datatype Option<+T> = None | Some(value: T)
}
