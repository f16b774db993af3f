/** Optional values and the machine words of the C code. */
module Basics {

  datatype Option<T> = None | Some(value: T)

  /** The C type uint8_t. */
  type byte = x: int | 0 <= x < 0x100

  /** The C type uint16_t. */
  type u16 = x: int | 0 <= x < 0x1_0000

  const TWO_TO_THE_32: int := 0x1_0000_0000

  /** The C type u32. */
  type u32 = x: int | 0 <= x < TWO_TO_THE_32

  /** Stores an integer in a u32: addition and subtraction wrap around. */
  function Wrap(x: int): (r: u32)
  {
    x % TWO_TO_THE_32
  }

  lemma WrapAdd(x: int, y: int)
    ensures Wrap(Wrap(x) + y) == Wrap(x + y)
  {
  }

  function Min(x: int, y: int): int
  {
    if x < y then x else y
  }
}
