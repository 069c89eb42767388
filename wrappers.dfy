/** Optional values: JavaScript's `undefined` / `null` versus a present value. */
module Wrappers {

  datatype Option<+T> = None | Some(value: T)

  /** The result of an awaited call that may reject (an exception caught by the caller). */
  datatype Call<+T> = Returned(value: T) | Threw
}
