/** Optional values: the model's stand-in for TypeScript's `T | undefined`
    and for DOM queries that may find nothing. */
module Wrappers {

  datatype Option<+T> = None | Some(value: T)
}
