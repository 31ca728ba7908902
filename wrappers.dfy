/** Optional values: None stands for JavaScript's `undefined` result. */
module Wrappers {
  datatype Option<T> = None | Some(value: T)
}
