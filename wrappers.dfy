/** The optional value returned by the bracket search (JavaScript's `find` yields `undefined` when nothing matches). */
module Wrappers {
  datatype Option<+T> = None | Some(value: T)
}
