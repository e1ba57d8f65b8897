/** Optional values shared by the cart engine and the role guard. */
module Outcomes {

  /** A value that may be absent (a missing record, an id that did not parse, no metadata). */
  datatype Option<+T> = None | Some(value: T)
}
