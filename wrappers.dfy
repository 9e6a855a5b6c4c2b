/** The optional value the source writes as stout's `Option<T>`. */
module Wrappers {

  datatype Option<+T> = None | Some(value: T)
}
