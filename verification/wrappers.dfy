/** The JavaScript `null` / `undefined` alternative: a value or nothing. */
module Wrappers {

  datatype Option<+T> = None | Some(value: T)
}
