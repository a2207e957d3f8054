/** The optional value used for JavaScript's `null` / `undefined` and for a `NaN` result. */
module Wrappers {

  datatype Option<+T> = None | Some(value: T)

}
