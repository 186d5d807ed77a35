/** The usual optional-value datatype: `null`/`undefined` in the shell become None. */
module Wrappers {

  datatype Option<+T> = None | Some(value: T)
}
