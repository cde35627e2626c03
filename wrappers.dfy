/** The usual Some/None wrapper; `None` stands for JavaScript's `null`
    where a function returns "a value or null". */
module Wrappers {
  datatype Option<+T> = None | Some(value: T)
}
