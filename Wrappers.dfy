/** Optional values, used wherever a foreign call may fail or a lookup may miss. */
module Wrappers {

  datatype Option<+T> = None | Some(value: T)

}
