/** An optional value: JavaScript's `undefined` / `null` against a present value. */
module Wrappers {
  datatype Option<+T> = None | Some(value: T)
}
