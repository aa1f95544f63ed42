/** Java's nullable references, written out. */
module Wrappers {

  /** `None` stands for a Java `null`, `Some(v)` for a present value. */
  datatype Option<+T> = None | Some(value: T)
}
