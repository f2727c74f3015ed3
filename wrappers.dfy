/** An optional value; `None` stands for JavaScript's `undefined` where a lookup can miss. */
module Wrappers {
  datatype Option<+T> = None | Some(value: T)
}
