/** Which writes from the bus reach which memory, and what switching the LCD off and on does. */
module BusWrites {
  import opened Bytes
  import opened Registers
  import opened Fetch
  import opened PpuCore
  import opened Mode3
  import opened Conservation
  import opened Blueprint
  import opened Likeness
  import opened StatusInterrupts
  import History

  // The mode, as the lower two bits of STAT.
  function ModeOf(p: Ppu): nat
  {
    StatBit(p.regs, 0) + 2 * StatBit(p.regs, 1)
  }

  lemma ModeIs(p: Ppu)
    ensures ModeOf(p) == ModeBits(p.Mode())
  {
    hide StatBit;
    StatBits(p.regs);
  }

  // Video memory takes every write but those in mode 3 with the LCD on, and nothing else changes.
  lemma VideoWrite(p: Ppu, addr: Word, val: Byte)
    requires p.Valid() && 0x8000 <= addr <= 0x9FFF
    ensures var q := Written(p, addr, val);
      && q == p.(vram := q.vram)
      && forall a :: 0 <= a < 0x2000 ==>
           q.vram[a] == if a == addr - 0x8000 && !(p.enabled && ModeOf(p) == 3) then val else p.vram[a]
  {
    hide StatBit, Pipe.Valid;
    ModeIs(p);
  }

  // Object memory takes writes in modes 0 and 1, with the LCD off, and during DMA.
  lemma ObjectWrite(p: Ppu, addr: Word, val: Byte)
    requires p.Valid() && 0xFE00 <= addr <= 0xFE9F
    ensures var q := Written(p, addr, val);
      && q == p.(oam := q.oam)
      && forall a :: 0 <= a < 160 ==>
           q.oam[a] == if a == addr - 0xFE00 && (!p.enabled || p.dma || ModeOf(p) < 2) then val else p.oam[a]
  {
    hide StatBit, Pipe.Valid;
    ModeIs(p);
  }

  // DMA writes reach object memory always.
  lemma ObjectWriteByDma(p: Ppu, addr: Word, val: Byte)
    requires p.Valid() && 0xFE00 <= addr <= 0xFE9F
    ensures var q := WrittenByDma(p, addr, val);
      && q == p.(oam := q.oam)
      && forall a :: 0 <= a < 160 ==> q.oam[a] == if a == addr - 0xFE00 then val else p.oam[a]
  {
  }

  // Writes to other addresses below the registers change nothing, and register writes no memory.
  lemma OtherWrites(p: Ppu, addr: Word, val: Byte)
    requires p.Valid() && !(0x8000 <= addr <= 0x9FFF) && !(0xFE00 <= addr <= 0xFE9F)
    ensures var q := Written(p, addr, val);
      q.vram == p.vram && q.oam == p.oam && q.dma == p.dma && (addr < 0xFF00 ==> q == p)
  {
    hide LcdcOf, Regs.Write, Pipe.Valid;
  }

  // Clearing bit 7 of LCDC stops the unit at the start of line 0 in mode 2: no number of cycles moves it.
  lemma SwitchOff(p: Ppu, val: Byte, cycles: nat)
    requires p.Valid() && BitAt(p.regs.Read(0xFF40), 7) == 1 && val < 0x80
    ensures var q := Written(p, 0xFF40, val);
      && !q.enabled && Line(q.regs) == 0 && ModeOf(q) == 2 && q.lineCycles == 0 && q.winY == 0
      && q.pipe == p.pipe && Batch(q, cycles) == Out(q, [])
  {
    hide LcdcByte, BitAt, StatBit, Pipe.Valid;
    LcdcBits(p.regs.lcdc);
    var q := Written(p, 0xFF40, val);
    ModeIs(q);
    StatBits(q.regs);
  }

  // Setting it again starts a frame, whatever the pipeline was doing when it was cleared.
  lemma OffAndOn(p: Ppu, off: Byte, on: Byte)
    requires Inv(p) && BitAt(p.regs.Read(0xFF40), 7) == 1 && off < 0x80 <= on
    ensures p.Valid() && FrameBegins(Written(Written(p, 0xFF40, off), 0xFF40, on))
  {
    hide BitAt, Linked, StatBit, Written, BgReachable, Potential;
    SwitchOff(p, off, 0);
    var q := Written(p, 0xFF40, off);
    History.WriteMovesNothing(p, 0xFF40, off);
    OffIsOff(p, off);
    OnFrom(q, on);
  }

  lemma OffIsOff(p: Ppu, off: Byte)
    requires Inv(p) && BitAt(p.regs.Read(0xFF40), 7) == 1 && off < 0x80
    ensures var q := Written(p, 0xFF40, off); Inv(q) && !q.regs.lcdc.enable && q.Mode() == OamSearch && q.regs.ly == 0
  {
    hide BitAt, Linked, LcdcByte;
    LcdcBits(p.regs.lcdc);
    History.WriteMovesNothing(p, 0xFF40, off);
  }

  lemma OnFrom(q: Ppu, on: Byte)
    requires Inv(q) && !q.regs.lcdc.enable && q.Mode() == OamSearch && q.regs.ly == 0 && q.lineCycles == 0 && on >= 0x80
    ensures FrameBegins(Written(q, 0xFF40, on))
  {
    hide Linked;
  }
}
