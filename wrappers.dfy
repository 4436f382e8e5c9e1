/** Optional values: `None` stands for JavaScript's `null` or `NaN` where the source uses them as "no value". */
module Wrappers {
  datatype Option<+T> = None | Some(value: T)
}
