/** The PPU's registers. LCDC and STAT are held by their bit fields; everything else as the byte. */
module Registers {
  import opened Bytes

  const LCDC_ADDR := 0xFF40
  const STAT_ADDR := 0xFF41
  const SCY_ADDR := 0xFF42
  const SCX_ADDR := 0xFF43
  const LY_ADDR := 0xFF44
  const LYC_ADDR := 0xFF45
  const BGP_ADDR := 0xFF47
  const OBP0_ADDR := 0xFF48
  const OBP1_ADDR := 0xFF49
  const WY_ADDR := 0xFF4A
  const WX_ADDR := 0xFF4B

  const OFFSET_9000 := 0x1000
  const OFFSET_9800 := 0x1800
  const OFFSET_9C00 := 0x1C00

  datatype Lcdc = Lcdc(enable: bool, winMapHigh: bool, winOn: bool, data8000: bool,
                       bgMapHigh: bool, tallObjs: bool, objOn: bool, bgOn: bool)

  datatype Mode = HBlank | VBlank | OamSearch | DataXfer

  datatype Stat = Stat(coincidenceIrq: bool, oamIrq: bool, vblankIrq: bool, hblankIrq: bool,
                       coincidence: bool, mode: Mode)

  function Flag(b: bool, weight: nat): nat
  {
    if b then weight else 0
  }

  function LcdcOf(b: Byte): Lcdc
  {
    Lcdc(b / 0x80 % 2 == 1, b / 0x40 % 2 == 1, b / 0x20 % 2 == 1, b / 0x10 % 2 == 1,
         b / 8 % 2 == 1, b / 4 % 2 == 1, b / 2 % 2 == 1, b % 2 == 1)
  }

  function LcdcByte(l: Lcdc): Byte
  {
    Flag(l.enable, 0x80) + Flag(l.winMapHigh, 0x40) + Flag(l.winOn, 0x20) + Flag(l.data8000, 0x10)
    + Flag(l.bgMapHigh, 8) + Flag(l.tallObjs, 4) + Flag(l.objOn, 2) + Flag(l.bgOn, 1)
  }

  function ModeBits(m: Mode): nat
  {
    match m
    case HBlank => 0
    case VBlank => 1
    case OamSearch => 2
    case DataXfer => 3
  }

  function StatByte(s: Stat): Byte
  {
    Flag(s.coincidenceIrq, 0x40) + Flag(s.oamIrq, 0x20) + Flag(s.vblankIrq, 0x10) + Flag(s.hblankIrq, 8)
    + Flag(s.coincidence, 4) + ModeBits(s.mode)
  }

  datatype Regs = Regs(lcdc: Lcdc, scy: Byte, scx: Byte, ly: Byte, lyc: Byte, bgp: Byte, obp0: Byte,
                       obp1: Byte, wy: Byte, wx: Byte, stat: Stat, bgMap: int, winMap: int, tileData: int) {

    // The cached VRAM offsets are those that LCDC selects.
    predicate OffsetsAgree()
    {
      && bgMap == (if lcdc.bgMapHigh then OFFSET_9C00 else OFFSET_9800)
      && winMap == (if lcdc.winMapHigh then OFFSET_9C00 else OFFSET_9800)
      && tileData == (if lcdc.data8000 then 0 else OFFSET_9000)
    }

    function Write(addr: Word, val: Byte): Regs
    {
      if addr == LCDC_ADDR then
        var l := LcdcOf(val);
        this.(lcdc := l,
              bgMap := if l.bgMapHigh then OFFSET_9C00 else OFFSET_9800,
              tileData := if l.data8000 then 0 else OFFSET_9000,
              winMap := if l.winMapHigh then OFFSET_9C00 else OFFSET_9800)
      else if addr == STAT_ADDR then
        this.(stat := stat.(coincidenceIrq := val / 0x40 % 2 == 1, oamIrq := val / 0x20 % 2 == 1,
                            vblankIrq := val / 0x10 % 2 == 1, hblankIrq := val / 8 % 2 == 1))
      else if addr == SCY_ADDR then this.(scy := val)
      else if addr == SCX_ADDR then this.(scx := val)
      else if addr == LYC_ADDR then this.(lyc := val)
      else if addr == BGP_ADDR then this.(bgp := val)
      else if addr == OBP0_ADDR then this.(obp0 := val)
      else if addr == OBP1_ADDR then this.(obp1 := val)
      else if addr == WY_ADDR then this.(wy := val)
      else if addr == WX_ADDR then this.(wx := val)
      else this
    }

    function Read(addr: Word): Byte
    {
      if addr == LCDC_ADDR then LcdcByte(lcdc)
      else if addr == STAT_ADDR then StatByte(stat)
      else if addr == SCY_ADDR then scy
      else if addr == SCX_ADDR then scx
      else if addr == LY_ADDR then ly
      else if addr == LYC_ADDR then lyc
      else if addr == BGP_ADDR then bgp
      else if addr == OBP0_ADDR then obp0
      else if addr == OBP1_ADDR then obp1
      else if addr == WY_ADDR then wy
      else if addr == WX_ADDR then wx
      else 0xff
    }
  }

  const POWER_ON := Regs(Lcdc(false, false, false, false, false, false, false, false),
                         0, 0, 0, 0, 0, 0, 0, 0, 0, Stat(false, false, false, false, false, HBlank),
                         OFFSET_9800, OFFSET_9800, OFFSET_9000)

  // A byte is the sum of its bits.
  lemma BitsOfByte(b: Byte)
    ensures b == b / 0x80 % 2 * 0x80 + b / 0x40 % 2 * 0x40 + b / 0x20 % 2 * 0x20 + b / 0x10 % 2 * 0x10
                 + b / 8 % 2 * 8 + b / 4 % 2 * 4 + b / 2 % 2 * 2 + b % 2
  {
    var b1, b2, b3 := b / 2, b / 4, b / 8;
    assert b2 == b1 / 2 && b3 == b2 / 2 && b / 0x10 == b3 / 2;
    assert b / 0x20 == b / 0x10 / 2 && b / 0x40 == b / 0x20 / 2 && b / 0x80 == b / 0x40 / 2;
    assert b / 0x80 < 2;
  }

  lemma FlagOfBit(bit: nat, weight: nat)
    requires bit < 2
    ensures Flag(bit == 1, weight) == bit * weight
  {
  }

  lemma LcdcRoundTrip(b: Byte)
    ensures LcdcByte(LcdcOf(b)) == b
  {
    BitsOfByte(b);
    FlagOfBit(b / 0x80 % 2, 0x80);
    FlagOfBit(b / 0x40 % 2, 0x40);
    FlagOfBit(b / 0x20 % 2, 0x20);
    FlagOfBit(b / 0x10 % 2, 0x10);
    FlagOfBit(b / 8 % 2, 8);
    FlagOfBit(b / 4 % 2, 4);
    FlagOfBit(b / 2 % 2, 2);
    FlagOfBit(b % 2, 1);
  }

  // A STAT write replaces the four interrupt enables and keeps the coincidence flag and the mode.
  lemma StatWrite(r: Regs, val: Byte)
    ensures StatByte(r.Write(STAT_ADDR, val).stat) == val / 8 % 0x10 * 8 + StatByte(r.stat) % 8
  {
    var s' := r.Write(STAT_ADDR, val).stat;
    StatLow(r.stat);
    StatLow(s');
    assert StatEnables(s') == val / 8 % 0x10 by {
      NibbleBits(val);
      FlagOfBit(val / 0x40 % 2, 8);
      FlagOfBit(val / 0x20 % 2, 4);
      FlagOfBit(val / 0x10 % 2, 2);
      FlagOfBit(val / 8 % 2, 1);
    }
  }

  function StatEnables(s: Stat): nat
  {
    Flag(s.coincidenceIrq, 8) + Flag(s.oamIrq, 4) + Flag(s.vblankIrq, 2) + Flag(s.hblankIrq, 1)
  }

  lemma StatLow(s: Stat)
    ensures StatByte(s) == 8 * StatEnables(s) + Flag(s.coincidence, 4) + ModeBits(s.mode)
    ensures StatByte(s) % 8 == Flag(s.coincidence, 4) + ModeBits(s.mode)
  {
  }

  lemma EighthOf(val: nat, top: nat, m: nat, low: nat)
    requires val == 8 * (0x10 * top + m) + low && m < 0x10 && low < 8
    ensures val / 8 % 0x10 == m
  {
    assert val / 8 == 0x10 * top + m;
  }

  lemma NibbleBits(val: Byte)
    ensures val / 8 % 0x10 == val / 0x40 % 2 * 8 + val / 0x20 % 2 * 4 + val / 0x10 % 2 * 2 + val / 8 % 2
  {
    BitsOfByte(val);
    var top, low := val / 0x80 % 2, val / 4 % 2 * 4 + val / 2 % 2 * 2 + val % 2;
    var m := val / 0x40 % 2 * 8 + val / 0x20 % 2 * 4 + val / 0x10 % 2 * 2 + val / 8 % 2;
    EighthOf(val, top, m, low);
  }

  // Reading back a register gives what was written, except that STAT keeps its low three bits
  // and LY ignores the write; no write touches another register.
  lemma ReadBack(r: Regs, addr: Word, val: Byte)
    requires LCDC_ADDR <= addr <= WX_ADDR && addr != 0xFF46
    ensures r.Write(addr, val).Read(addr) ==
            if addr == STAT_ADDR then val / 8 % 0x10 * 8 + r.Read(addr) % 8
            else if addr == LY_ADDR then r.Read(addr) else val
    ensures forall other: Word :: other != addr ==> r.Write(addr, val).Read(other) == r.Read(other)
  {
    if addr == LCDC_ADDR {
      LcdcRoundTrip(val);
    } else if addr == STAT_ADDR {
      StatWrite(r, val);
    }
  }

  // At power-on every register reads 0, and an address without one 0xFF.
  lemma PowerOnReads(addr: Word)
    ensures POWER_ON.Read(addr) == if 0xFF40 <= addr <= 0xFF4B && addr != 0xFF46 then 0 else 0xFF
  {
  }

  class PpuRegisters {
    var LCDC: Lcdc
    var SCY: Byte
    var SCX: Byte
    var LY: Byte
    var LYC: Byte
    var BGP: Byte
    var OBP0: Byte
    var OBP1: Byte
    var WY: Byte
    var WX: Byte
    var STAT: Stat
    var bgMapOffset: int
    var winMapOffset: int
    var tileDataOffset: int

    ghost function Model(): Regs
      reads this
    {
      Regs(LCDC, SCY, SCX, LY, LYC, BGP, OBP0, OBP1, WY, WX, STAT, bgMapOffset, winMapOffset, tileDataOffset)
    }

    constructor ()
      ensures Model() == POWER_ON
    {
      LCDC := Lcdc(false, false, false, false, false, false, false, false);
      SCY, SCX, LY, LYC, BGP, OBP0, OBP1, WY, WX := 0, 0, 0, 0, 0, 0, 0, 0, 0;
      STAT := Stat(false, false, false, false, false, HBlank);
      bgMapOffset, winMapOffset, tileDataOffset := OFFSET_9800, OFFSET_9800, OFFSET_9000;
    }

    method Write(addr: Word, val: Byte)
      modifies this
      ensures Model() == old(Model()).Write(addr, val)
    {
      if addr == LCDC_ADDR {
        LCDC := LcdcOf(val);
        bgMapOffset := if LCDC.bgMapHigh then OFFSET_9C00 else OFFSET_9800;
        tileDataOffset := if LCDC.data8000 then 0 else OFFSET_9000;
        winMapOffset := if LCDC.winMapHigh then OFFSET_9C00 else OFFSET_9800;
      } else if addr == STAT_ADDR {
        STAT := Stat(val / 0x40 % 2 == 1, val / 0x20 % 2 == 1, val / 0x10 % 2 == 1, val / 8 % 2 == 1,
                     STAT.coincidence, STAT.mode);
      } else if addr == SCY_ADDR {
        SCY := val;
      } else if addr == SCX_ADDR {
        SCX := val;
      } else if addr == LYC_ADDR {
        LYC := val;
      } else if addr == BGP_ADDR {
        BGP := val;
      } else if addr == OBP0_ADDR {
        OBP0 := val;
      } else if addr == OBP1_ADDR {
        OBP1 := val;
      } else if addr == WY_ADDR {
        WY := val;
      } else if addr == WX_ADDR {
        WX := val;
      }
    }
  }
}
