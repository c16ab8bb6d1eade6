/** The Some/None datatype standing in for Python's `None` results. */
module Wrappers {

  datatype Option<+T> = None | Some(value: T)
}
