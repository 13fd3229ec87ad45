/** Optional values: JavaScript's `undefined` (or a non-finite number) versus a present value. */
module Wrappers {

  datatype Option<+T> = None | Some(value: T)

}
