/** An optional value, used where the JavaScript code yields
    `null`/`undefined` or an optional argument may be left out. */
module Wrappers {

  datatype Option<+T> = None | Some(value: T)
}
