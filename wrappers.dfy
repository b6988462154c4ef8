/** The usual optional-value datatype, for references the source may find missing. */
module Wrappers {

  datatype Option<+T> = None | Some(value: T)
}
