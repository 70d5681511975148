/** Optional values: nullable columns, absent settings and missing rows. */
module Wrappers {

  datatype Option<+T> = None | Some(value: T)

}
