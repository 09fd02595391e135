/** An optional value: the answer of a property query that may fail. */
module Wrappers {

  datatype Option<+T> = None | Some(value: T)

}
