/** Option: a value that may be missing (JavaScript null/undefined, Python None). */
module Wrappers {
  datatype Option<+T> = None | Some(value: T)
}
