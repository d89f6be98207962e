/** The optional value the component hands out where the source writes `x || null`. */
module Wrappers {

  datatype Option<+T> = None | Some(value: T)
}
