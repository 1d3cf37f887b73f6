/** The nullable values of the pages' state cells: JavaScript `null` is `None`. */
module Wrappers {

  datatype Option<+T> = None | Some(value: T)
}
