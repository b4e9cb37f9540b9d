/** The optional value that stands for PHP's nullable results (`?array`, `?string`). */
module Wrappers {

  datatype Option<+T> = None | Some(value: T)
}
