/** A value that may be absent: the dashboard's `null` and its empty display slots. */
module Wrappers {

  datatype Option<+T> = None | Some(value: T)
}
