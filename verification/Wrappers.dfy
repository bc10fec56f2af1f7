/** The usual carriers for a value that may be missing and for an operation that may fail, and the
    width of the program's revision counters. */
module Wrappers {
  const MAX_UINT64: nat := 0xFFFF_FFFF_FFFF_FFFF

  datatype Option<+T> = None | Some(value: T)

  datatype Result<+T, +E> = Ok(value: T) | Err(error: E)
}
