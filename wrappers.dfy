/** Option: a value that may be absent (a JavaScript `undefined`, `null` or `NaN`). */
module Wrappers {
  datatype Option<+T> = None | Some(value: T)
}
