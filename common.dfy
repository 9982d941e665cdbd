/** Machine-width integers and small wrappers shared by every module of the model. */
module Common {

  const TWO_32: int := 0x1_0000_0000
  const TWO_64: int := 0x1_0000_0000_0000_0000

  /** A C `uint8_t`. */
  type u8 = x: int | 0 <= x < 0x100
  /** A C `uint16_t`. */
  type u16 = x: int | 0 <= x < 0x1_0000
  /** A C `uint32_t`. */
  type u32 = x: int | 0 <= x < 0x1_0000_0000
  /** A C `uint64_t` (also `dev_dma_addr_t`, a device-side bus address). */
  type u64 = x: int | 0 <= x < 0x1_0000_0000_0000_0000
  /** A C `int32_t`. */
  type i32 = x: int | -0x8000_0000 <= x < 0x8000_0000

  datatype Option<+T> = None | Some(value: T)

  /** Conversion of any C integer expression to `uint32_t` (reduction modulo 2^32). */
  function Wrap32(x: int): (r: u32)
    ensures 0 <= x < TWO_32 ==> r == x
    ensures (r - x) % TWO_32 == 0
  {
    x % TWO_32
  }

  /** Conversion of any C integer expression to `uint64_t` (reduction modulo 2^64). */
  function Wrap64(x: int): (r: u64)
    ensures 0 <= x < TWO_64 ==> r == x
    ensures (r - x) % TWO_64 == 0
  {
    x % TWO_64
  }

  /** The value an atomic 32-bit counter holds after `atomic_inc_return`. */
  function Inc32(x: u32): (r: u32)
    ensures x < TWO_32 - 1 ==> r == x + 1
    ensures x == TWO_32 - 1 ==> r == 0
  {
    (x + 1) % TWO_32
  }

  /** Linux error numbers returned (negated) by the driver. */
  const ENOMEM: int := 12
  const EINVAL: int := 22
  const EINPROGRESS: int := 115
}
