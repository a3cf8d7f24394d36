/** Optional values: JavaScript's `undefined` or absent fields, and parses that fail. */
module Wrappers {

  datatype Option<+T> = None | Some(value: T)
}
