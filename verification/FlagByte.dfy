/** The register F as the byte it is, and the record of flags it stands for. */
module FlagByte {

  datatype Flags = Flags(z: bool, n: bool, h: bool, c: bool)

  const FLAG_Z: bv8 := 0x80
  const FLAG_N: bv8 := 0x40
  const FLAG_H: bv8 := 0x20
  const FLAG_C: bv8 := 0x10

  // Every way a handler writes F: the flag macros with the flags they name, and POP AF with the byte
  // it finds on the stack.
  datatype FlagWrite =
    | SetFlag(mask: Flags)
    | ClearFlag(mask: Flags)
    | ToggleFlag(mask: Flags)
    | ClearFlags
    | PopF(popped: bv8)

  function MaskOf(f: Flags): bv8
  {
    (if f.z then FLAG_Z else 0) | (if f.n then FLAG_N else 0)
    | (if f.h then FLAG_H else 0) | (if f.c then FLAG_C else 0)
  }

  function Stored(b: bv8, w: FlagWrite): bv8
  {
    match w
    case SetFlag(m) => b | MaskOf(m)
    case ClearFlag(m) => b & !MaskOf(m)
    case ToggleFlag(m) => b ^ MaskOf(m)
    case ClearFlags => 0
    case PopF(p) => p & 0xf0
  }

  predicate On(b: bv8, bit: bv8)
  {
    b & bit != 0
  }

  // TEST_FLAG
  function Tested(b: bv8): Flags
  {
    Flags(On(b, FLAG_Z), On(b, FLAG_N), On(b, FLAG_H), On(b, FLAG_C))
  }

  // The flags are the upper four bits: zero, subtraction, half carry, carry.
  lemma TestedBits(b: bv8)
    ensures Tested(b) == Flags(b & 0x80 != 0, b & 0x40 != 0, b & 0x20 != 0, b & 0x10 != 0)
  {
  }

  // The same on the record.
  function Noted(f: Flags, w: FlagWrite): Flags
  {
    match w
    case SetFlag(m) => Flags(f.z || m.z, f.n || m.n, f.h || m.h, f.c || m.c)
    case ClearFlag(m) => Flags(f.z && !m.z, f.n && !m.n, f.h && !m.h, f.c && !m.c)
    case ToggleFlag(m) => Flags(f.z != m.z, f.n != m.n, f.h != m.h, f.c != m.c)
    case ClearFlags => Flags(false, false, false, false)
    case PopF(p) => Tested(p)
  }

  function AllStored(b: bv8, ws: seq<FlagWrite>): bv8
  {
    if ws == [] then b else Stored(AllStored(b, ws[..|ws| - 1]), ws[|ws| - 1])
  }

  function AllNoted(f: Flags, ws: seq<FlagWrite>): Flags
  {
    if ws == [] then f else Noted(AllNoted(f, ws[..|ws| - 1]), ws[|ws| - 1])
  }

  lemma MaskBits(f: Flags)
    ensures MaskOf(f) & 0x0f == 0 && Tested(MaskOf(f)) == f
  {
  }

  lemma LowNibble(b: bv8, m: bv8)
    requires b & 0x0f == 0 && m & 0x0f == 0
    ensures (b | m) & 0x0f == 0 && (b & !m) & 0x0f == 0 && (b ^ m) & 0x0f == 0
  {
  }

  predicate IsFlag(bit: bv8)
  {
    bit == FLAG_Z || bit == FLAG_N || bit == FLAG_H || bit == FLAG_C
  }

  lemma OrBits(b: bv8, m: bv8, bit: bv8)
    requires IsFlag(bit)
    ensures On(b | m, bit) <==> On(b, bit) || On(m, bit)
  {
  }

  lemma AndNotBits(b: bv8, m: bv8, bit: bv8)
    requires IsFlag(bit)
    ensures On(b & !m, bit) <==> On(b, bit) && !On(m, bit)
  {
  }

  lemma XorBits(b: bv8, m: bv8, bit: bv8)
    requires IsFlag(bit)
    ensures On(b ^ m, bit) <==> On(b, bit) != On(m, bit)
  {
  }

  lemma FourFlags(r: bv8, f: Flags)
    requires On(r, FLAG_Z) == f.z && On(r, FLAG_N) == f.n && On(r, FLAG_H) == f.h && On(r, FLAG_C) == f.c
    ensures Tested(r) == f
  {
    hide On;
  }

  // The macros work flag by flag.
  lemma SetShows(b: bv8, m: bv8)
    ensures Tested(b | m) == Noted(Tested(b), SetFlag(Tested(m)))
  {
    hide On;
    OrBits(b, m, FLAG_Z);
    OrBits(b, m, FLAG_N);
    OrBits(b, m, FLAG_H);
    OrBits(b, m, FLAG_C);
    FourFlags(b | m, Noted(Tested(b), SetFlag(Tested(m))));
  }

  lemma ClearShows(b: bv8, m: bv8)
    ensures Tested(b & !m) == Noted(Tested(b), ClearFlag(Tested(m)))
  {
    hide On;
    AndNotBits(b, m, FLAG_Z);
    AndNotBits(b, m, FLAG_N);
    AndNotBits(b, m, FLAG_H);
    AndNotBits(b, m, FLAG_C);
    FourFlags(b & !m, Noted(Tested(b), ClearFlag(Tested(m))));
  }

  lemma ToggleShows(b: bv8, m: bv8)
    ensures Tested(b ^ m) == Noted(Tested(b), ToggleFlag(Tested(m)))
  {
    hide On;
    XorBits(b, m, FLAG_Z);
    XorBits(b, m, FLAG_N);
    XorBits(b, m, FLAG_H);
    XorBits(b, m, FLAG_C);
    FourFlags(b ^ m, Noted(Tested(b), ToggleFlag(Tested(m))));
  }

  lemma MaskedWrite(b: bv8, f: Flags)
    requires b & 0x0f == 0
    ensures forall w :: w == SetFlag(f) || w == ClearFlag(f) || w == ToggleFlag(f) ==>
              Stored(b, w) & 0x0f == 0 && Tested(Stored(b, w)) == Noted(Tested(b), w)
  {
    hide MaskOf, Tested, Noted;
    MaskBits(f);
    LowNibble(b, MaskOf(f));
    SetShows(b, MaskOf(f));
    ClearShows(b, MaskOf(f));
    ToggleShows(b, MaskOf(f));
  }

  lemma WriteShows(b: bv8, w: FlagWrite)
    requires b & 0x0f == 0
    ensures Stored(b, w) & 0x0f == 0 && Tested(Stored(b, w)) == Noted(Tested(b), w)
  {
    match w
    case SetFlag(f) => hide *; MaskedWrite(b, f);
    case ClearFlag(f) => hide *; MaskedWrite(b, f);
    case ToggleFlag(f) => hide *; MaskedWrite(b, f);
    case ClearFlags =>
    case PopF(p) => assert p & 0xf0 & 0x0f == 0;
  }

  // Through any run of writes the low nibble of F stays zero, F is the byte of the record that the
  // same writes make, and no two records share a byte.
  lemma {:induction false} LowNibbleStaysZero(b: bv8, ws: seq<FlagWrite>)
    requires b & 0x0f == 0
    ensures AllStored(b, ws) & 0x0f == 0
    ensures Tested(AllStored(b, ws)) == AllNoted(Tested(b), ws)
    ensures AllStored(b, ws) == MaskOf(AllNoted(Tested(b), ws))
  {
    hide Stored, Noted, Tested;
    if ws != [] {
      LowNibbleStaysZero(b, ws[..|ws| - 1]);
      WriteShows(AllStored(b, ws[..|ws| - 1]), ws[|ws| - 1]);
    }
    ByteOfFlags(AllStored(b, ws));
  }

  lemma ByteOfFlags(b: bv8)
    requires b & 0x0f == 0
    ensures b == MaskOf(Tested(b))
  {
    assert b == (b & 0x80) | (b & 0x40) | (b & 0x20) | (b & 0x10) | (b & 0x0f);
    assert b & 0x80 == 0x80 || b & 0x80 == 0;
    assert b & 0x40 == 0x40 || b & 0x40 == 0;
    assert b & 0x20 == 0x20 || b & 0x20 == 0;
    assert b & 0x10 == 0x10 || b & 0x10 == 0;
  }
}
