/** The machine integers of the emulator, with the wrap-around written out. */
module Bytes {

  datatype Option<+T> = None | Some(value: T)

  // uint8_t and uint16_t
  type Byte = x: int | 0 <= x < 0x100
  type Word = x: int | 0 <= x < 0x1_0000

  // The value a byte has when it is read as an int8_t.
  function Signed(b: Byte): (r: int)
  {
    if b < 0x80 then b else b - 0x100
  }

  function Max(a: int, b: int): int
  {
    if a < b then b else a
  }

  // v >> k
  function ShiftRight(v: nat, k: nat): (r: nat)
  {
    if k == 0 then v else ShiftRight(v, k - 1) / 2
  }

  // Bit k of v, as 0 or 1.
  function Bit(v: nat, k: nat): (r: int)
    ensures 0 <= r <= 1
  {
    ShiftRight(v, k) % 2
  }
}
