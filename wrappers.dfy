/** The optional value used for nullable columns, absent request fields and
    the absent session user. */
module Wrappers {

  datatype Option<+T> = None | Some(value: T)
}
