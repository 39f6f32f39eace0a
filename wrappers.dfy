/** Optional values: `None` stands for JavaScript's `null`/`undefined` or an absent key. */
module Wrappers {
  datatype Option<+T> = None | Some(value: T)
}
