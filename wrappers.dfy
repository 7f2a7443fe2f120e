/** Optional values: the model's rendering of `undefined`, `null` and a missing key. */
module Wrappers {

  datatype Option<+T> = None | Some(value: T)
}
