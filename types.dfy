/** Value types shared by the whole model: optional values, the outcome of a call that may
    throw, and the unsigned integer ranges the C++ code works with. */
module Types {

  /** std::optional, or a pointer that may be null. */
  datatype Option<+T> = None | Some(value: T)

  /** How a C++ call ends: it returns a value or it throws an exception carrying a message. */
  datatype Outcome<+T> = Returned(value: T) | Threw(message: string)

  /** uint8_t: one channel of one pixel. */
  newtype uint8 = x: int | 0 <= x < 0x100

  /** The largest uint64_t; the value of `uint64_t x = -1`. */
  const MaxUint64: int := 0xFFFF_FFFF_FFFF_FFFF

  /** uint64_t */
  type uint64 = x: int | 0 <= x <= MaxUint64
}
