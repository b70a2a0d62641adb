/** The optional value the storefront code expresses with `null` and `undefined`. */
module Wrappers {

  datatype Option<+T> = None | Some(value: T)

}
