/** Shared option type and the bounds of the native channel. */
module Wrappers {
  datatype Option<+T> = None | Some(value: T)

  const MAX_MESSAGE: nat := 32 * 1024
  const MAX_DESKTOP_FRAME: nat := 8 * 1024 * 1024

  type Byte = n: int | 0 <= n < 256
}
