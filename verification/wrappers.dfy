/** Option, for values the source may leave unset (null) or undefined (NaN). */
module Wrappers {

  datatype Option<+T> = None | Some(value: T)
}
