/** Optional values, used for JavaScript results that are not numbers (NaN)
    and for references that may be null. */
module Wrappers {

  datatype Option<+T> = None | Some(value: T)
}
