/** The optional-value datatype used for JavaScript's `undefined`/`null` and for optional fields. */
module Wrappers {

  datatype Option<+T> = None | Some(value: T)
}
