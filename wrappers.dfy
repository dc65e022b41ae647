/** Optional values: the model's stand-in for a TypeScript value that may be `undefined`. */
module Wrappers {

  datatype Option<+T> = None | Some(value: T)
}
