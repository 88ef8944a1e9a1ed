/** Machine integer widths, the Option wrapper and the errno values the
    driver returns. */
module Base {

  /** uint8_t */
  type byte = x: int | 0 <= x < 0x100

  /** int16_t */
  type int16 = x: int | -0x8000 <= x < 0x8000

  /** int32_t */
  type int32 = x: int | -0x8000_0000 <= x < 0x8000_0000

  /** uint32_t */
  type uint32 = x: int | 0 <= x < 0x1_0000_0000

  datatype Option<T> = None | Some(value: T)

  /** A non-zero return code: the driver treats every non-zero value as failure. */
  type Errno = e: int | e != 0 witness -1

  // errno values of the Zephyr C library
  const EIO: int := 5
  const EBUSY: int := 16
  const ENODEV: int := 19
  const EINVAL: int := 22
  const ENOTSUP: int := 134

  /** The C conversion `(uint32_t)v` of an `int32_t`: two's-complement wrap. */
  function ToU32(v: int32): (u: uint32)
    ensures v >= 0 ==> u == v
    ensures v < 0 ==> u == v + 0x1_0000_0000
  {
    v % 0x1_0000_0000
  }
}
