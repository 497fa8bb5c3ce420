/** The absent-or-present value used for the page's nullable state (`null` in the page script). */
module Wrappers {
  datatype Option<+T> = None | Some(value: T)
}
