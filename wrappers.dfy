/** An optional value: the builder's optional third argument of where/orWhere. */
module Wrappers {

  datatype Option<+T> = None | Some(value: T)
}
