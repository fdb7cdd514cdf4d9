/** Optional values: a TypeScript value that may be `undefined`/`null`. */
module Wrappers {

  datatype Option<+T> = None | Some(value: T)
}
