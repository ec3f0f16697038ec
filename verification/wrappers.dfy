/** The optional value the store's lookups return (JavaScript's `undefined` / `null` becomes None). */
module Wrappers {

  datatype Option<+T> = None | Some(value: T)
}
