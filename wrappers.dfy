/** The usual Some/None datatype, used for JavaScript's `undefined` and for NaN. */
module Wrappers {

  datatype Option<+T> = None | Some(value: T)
}
