/** Optional values: `None` stands for JavaScript's `undefined`, `null` or `NaN`
    wherever the application tests for one of them. */
module Wrappers {

  datatype Option<+T> = None | Some(value: T)
}
