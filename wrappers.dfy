/** Optional values: a JavaScript `null`/`undefined` or a failed load. */
module Wrappers {

  datatype Option<+T> = None | Some(value: T)
}
