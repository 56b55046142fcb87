/** Types that every part of the models uses. */
module Basics {
  type Byte = bv8

  datatype Option<+T> = None | Some(value: T)

  /** A write that returns an error may have landed all the same. */
  datatype WriteResult = Ok | Err(landed: bool)
}
