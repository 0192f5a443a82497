/** Stands in for JavaScript's `null`/`undefined` wherever the source keeps an optional value. */
module Wrappers {

  datatype Option<+T> = None | Some(value: T)

}
