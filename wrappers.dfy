/** Optional values: a PHP value that may be absent (null, false or an unset array key). */
module Wrappers {

  datatype Option<+T> = None | Some(value: T)
}
