/** The optional value the script expresses with `null`/`undefined` checks. */
module Wrappers {
  datatype Option<T> = None | Some(value: T)
}
