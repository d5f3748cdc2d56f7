/** Optional values: an absent JSON field, a JavaScript `null`. */
module Wrappers {

  datatype Option<+T> = None | Some(value: T)

}
