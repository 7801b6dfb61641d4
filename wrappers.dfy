/** The optional value used for the source's `undefined`/`null` fields and results. */
module Wrappers {
  datatype Option<+T> = None | Some(value: T)
}
