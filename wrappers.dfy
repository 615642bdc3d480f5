/** The optional-value datatype used for nullable columns, absent request fields
    and partial foreign functions. */
module Wrappers {

  datatype Option<+T> = None | Some(value: T)
}
