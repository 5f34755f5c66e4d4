/** Optional values and two-channel results, used where the mower program
    works with `undefined`, `NaN` or an early `return`. */
module Wrappers {

  datatype Option<+T> = None | Some(value: T)

  datatype Result<+R, +E> = Success(value: R) | Failure(error: E)
}
