/** Optional values: the JavaScript `null`/`undefined` of the original program. */
module Wrappers {

  datatype Option<+T> = None | Some(value: T)
}
