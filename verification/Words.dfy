/** Fixed-width words, the values the processors compute on, and fat pointers. */
module Words {

  datatype Option<+T> = None | Some(value: T)

  type u8 = x: int | 0 <= x < 0x100
  type u16 = x: int | 0 <= x < 0x1_0000
  type u32 = x: int | 0 <= x < 0x1_0000_0000
  type u64 = x: int | 0 <= x < 0x1_0000_0000_0000_0000
  type i16 = x: int | -0x8000 <= x < 0x8000
  type i32 = x: int | -0x8000_0000 <= x < 0x8000_0000

  /** Register numbers of the CPU: three bits, both register files have eight entries. */
  type Reg = x: int | 0 <= x < 8

  function Wrap32(x: int): u32 {
    x % 0x1_0000_0000
  }

  /** Two's-complement truncation to 16 and to 32 bits. */
  function Signed16(x: int): i16 {
    (x + 0x8000) % 0x1_0000 - 0x8000
  }

  function Signed32(x: int): i32 {
    (x + 0x8000_0000) % 0x1_0000_0000 - 0x8000_0000
  }

  /** A 128-bit vector register: four unsigned 32-bit lanes. */
  datatype Vec4 = Vec4(x0: u32, x1: u32, x2: u32, x3: u32) {
    function Lane(i: nat): u32
      requires i < 4
    {
      if i == 0 then x0 else if i == 1 then x1 else if i == 2 then x2 else x3
    }
  }

  const ZERO4: Vec4 := Vec4(0, 0, 0, 0)

  /** A fat pointer: an AGU table index and an offset in 16-byte entries. */
  datatype FatPtr = FatPtr(tag: u8, offset: u32)
}
