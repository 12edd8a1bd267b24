/** When the picture unit requests interrupts, from the bits of STAT and the bytes LY and LYC. */
module StatusInterrupts {
  import opened Bytes
  import opened Registers
  import opened Fetch
  import opened Interrupts
  import opened Outputs
  import opened PpuCore
  import opened Batching
  import opened Conservation
  import opened Blueprint
  import opened Likeness

  // Bit k of STAT, and LY and LYC, as they read on the bus.
  function StatBit(r: Regs, k: nat): (b: int)
    requires k < 8
    ensures 0 <= b <= 1
  {
    BitAt(r.Read(0xFF41), k)
  }

  function Line(r: Regs): Byte
  {
    r.Read(0xFF44)
  }

  function Compare(r: Regs): Byte
  {
    r.Read(0xFF45)
  }

  lemma StatBits(r: Regs)
    ensures StatBit(r, 2) == Flag(r.stat.coincidence, 1) && StatBit(r, 3) == Flag(r.stat.hblankIrq, 1)
    ensures StatBit(r, 4) == Flag(r.stat.vblankIrq, 1) && StatBit(r, 5) == Flag(r.stat.oamIrq, 1)
    ensures StatBit(r, 6) == Flag(r.stat.coincidenceIrq, 1) && StatBit(r, 7) == 0
    ensures StatBit(r, 0) + 2 * StatBit(r, 1) == ModeBits(r.stat.mode)
    ensures Line(r) == r.ly && Compare(r) == r.lyc
  {
    hide BitAt;
    var s, b := r.stat, StatByte(r.stat);
    BitByHalves(b);
    var h := 4 * Flag(s.coincidenceIrq, 1) + 2 * Flag(s.oamIrq, 1) + Flag(s.vblankIrq, 1);
    var m1, m0 := ModeBits(s.mode) / 2, ModeBits(s.mode) % 2;
    ScaledStat(s);
    FourBits(b, h, Flag(s.hblankIrq, 1), Flag(s.coincidence, 1), m1, m0);
    FourBits(h, 0, 0, Flag(s.coincidenceIrq, 1), Flag(s.oamIrq, 1), Flag(s.vblankIrq, 1));
  }

  lemma ScaledStat(s: Stat)
    ensures StatByte(s)
         == 16 * (4 * Flag(s.coincidenceIrq, 1) + 2 * Flag(s.oamIrq, 1) + Flag(s.vblankIrq, 1))
            + 8 * Flag(s.hblankIrq, 1) + 4 * Flag(s.coincidence, 1) + 2 * (ModeBits(s.mode) / 2) + ModeBits(s.mode) % 2
  {
  }

  // ---- Counting

  // The LCD status interrupt and the frame interrupt.
  function Status(o: seq<Output>): nat
  {
    Requests(o, ItLcdcStatus)
  }

  function Frames(o: seq<Output>): nat
  {
    Requests(o, ItVBlank)
  }

  lemma CountAppend(a: seq<Output>, b: seq<Output>)
    ensures Status(a + b) == Status(a) + Status(b) && Frames(a + b) == Frames(a) + Frames(b)
  {
    OutputAppend(a, b, 0, 0, 0, ItLcdcStatus);
    OutputAppend(a, b, 0, 0, 0, ItVBlank);
  }

  lemma CountOne(kind: IrqType)
    ensures Status([]) == 0 && Frames([]) == 0
    ensures Status([Irq(kind)]) == (if kind == ItLcdcStatus then 1 else 0)
    ensures Frames([Irq(kind)]) == if kind == ItVBlank then 1 else 0
  {
    assert [Irq(kind)][..0] == [];
  }

  lemma ModeCounts(r: Regs, mode: Mode)
    ensures var o := ModeRequests(true, r.stat, mode);
      && Frames(o) == (if mode == VBlank then 1 else 0)
      && Status(o) == (match mode case HBlank => StatBit(r, 3) case VBlank => StatBit(r, 4)
                       case OamSearch => StatBit(r, 5) case DataXfer => 0)
  {
    hide StatBit, Status, Frames;
    StatBits(r);
    var v := if mode == VBlank then [Irq(ItVBlank)] else [];
    var l := if ModeIrq(r.stat, mode) then [Irq(ItLcdcStatus)] else [];
    assert ModeRequests(true, r.stat, mode) == v + l;
    CountAppend(v, l);
    CountOne(ItVBlank);
    CountOne(ItLcdcStatus);
  }

  // One request if the comparison is enabled and the line is the one to compare with.
  function Matches(r: Regs, line: Byte): nat
  {
    if StatBit(r, 6) == 1 && line == Compare(r) then 1 else 0
  }

  lemma LineCountsOne(r: Regs, line: Byte)
    ensures Status(LineRequests(r, line)) == Matches(r, line) && Frames(LineRequests(r, line)) == 0
  {
    hide StatBit, Status, Frames, Compare;
    StatBits(r);
    CountOne(ItLcdcStatus);
  }

  // ---- One dot

  // Within mode 3 nothing is requested; the dot that closes it requests the status interrupt if and only if
  // bit 3 is set, and leaves mode 0 in STAT.
  lemma TransferRequests(p: Ppu)
    requires p.Valid() && p.enabled && p.Mode() == DataXfer
    ensures var d := Dot(p);
      && Frames(d.o) == 0
      && Status(d.o) == (if d.p.Mode() == DataXfer then 0 else StatBit(p.regs, 3))
      && StatBit(d.p.regs, 0) + 2 * StatBit(d.p.regs, 1) == (if d.p.Mode() == DataXfer then 3 else 0)
  {
    hide Dot, StatBit, Status, Frames, ModeRequests, SameLine, FetchState.Reset;
    DotMoves(p);
    var d := Dot(p);
    StatBits(d.p.regs);
    CountOne(ItVBlank);
    if d.p.Mode() == DataXfer {
      OnlyDraws(d.o, p.regs.ly, p.x);
    } else {
      assert d.o == d.o[..1] + d.o[1..];
      OnlyDraws(d.o[..1], p.regs.ly, p.x);
      CountAppend(d.o[..1], d.o[1..]);
      ModeCounts(p.regs, HBlank);
    }
  }

  lemma {:induction false} OnlyDraws(o: seq<Output>, y: int, from: int)
    requires DrawsFrom(o, y, from)
    ensures Status(o) == 0 && Frames(o) == 0
  {
    if o != [] {
      OnlyDraws(o[..|o| - 1], y, from);
    }
  }

  // The last dot of a line: to the next visible line with bit 5, to vertical blanking with the frame
  // interrupt and bit 4, within it with nothing, and to the next frame with bit 5; and in each case once
  // more if bit 6 is set and the new line is LYC. Bit 2 then says whether it is.
  lemma LineEndRequests(p: Ppu)
    requires p.Valid() && p.enabled && Blanking(p.regs) && p.lineCycles == 455
    ensures var d, y := Dot(p), Line(p.regs);
      var y' := if y == 153 then 0 else y + 1;
      && Line(d.p.regs) == y' && (StatBit(d.p.regs, 2) == 1 <==> y' == Compare(d.p.regs))
      && Frames(d.o) == (if y == 143 then 1 else 0)
      && Status(d.o) == (if y < 143 || y == 153 then StatBit(p.regs, 5)
                         else if y == 143 then StatBit(p.regs, 4) else 0) + Matches(p.regs, y')
      && StatBit(d.p.regs, 0) + 2 * StatBit(d.p.regs, 1) == (if y < 143 || y == 153 then 2 else 1)
  {
    hide Dot, StatBit, Status, Frames, ModeRequests, LineRequests, Pipe.Valid, Matches;
    LastDot(p);
    var d, r := Dot(p), p.regs;
    StatBits(r);
    StatBits(d.p.regs);
    EndCounts(p);
  }

  lemma EndCounts(p: Ppu)
    requires p.Valid() && p.enabled && Blanking(p.regs)
    ensures var o, y := EndOfLine(p).o, Line(p.regs);
      var y' := if y == 153 then 0 else y + 1;
      && Frames(o) == (if y == 143 then 1 else 0)
      && Status(o) == (if y < 143 || y == 153 then StatBit(p.regs, 5)
                       else if y == 143 then StatBit(p.regs, 4) else 0) + Matches(p.regs, y')
  {
    hide StatBit, Status, Frames, ModeRequests, LineRequests, Pipe.Valid, Matches, Line;
    var r := p.regs;
    StatBits(r);
    var m := if NextMode(r) != r.stat.mode then ModeRequests(true, r.stat, NextMode(r)) else [];
    CountOne(ItVBlank);
    ModeCounts(r, NextMode(r));
    LineCountsOne(r, NextLine(r));
    CountAppend(m, LineRequests(r, NextLine(r)));
  }

  // All other dots request nothing and draw nothing.
  lemma OtherDots(p: Ppu)
    requires p.Valid() && (!p.enabled || p.Mode() == OamSearch || (Blanking(p.regs) && p.lineCycles < 455))
    ensures Dot(p).o == []
  {
    hide StartTransfer;
  }

  // ---- A frame

  // The requests of the status interrupt in the first y lines of a frame.
  function InLines(r: Regs, y: nat): nat
    requires y <= 153
  {
    StatBit(r, 3) * Least(y, 144) + StatBit(r, 5) * Least(y, 143) + (if y >= 144 then StatBit(r, 4) else 0)
    + (if StatBit(r, 6) == 1 && 1 <= Compare(r) <= y then 1 else 0)
  }

  function Least(a: nat, b: nat): nat
  {
    if a < b then a else b
  }

  lemma SameBits(r: Regs, s: Regs)
    requires SameEnables(s.stat, r.stat) && s.lyc == r.lyc
    ensures StatBit(s, 3) == StatBit(r, 3) && StatBit(s, 4) == StatBit(r, 4) && StatBit(s, 5) == StatBit(r, 5)
    ensures StatBit(s, 6) == StatBit(r, 6) && Compare(s) == Compare(r)
  {
    hide StatBit, Compare;
    StatBits(r);
    StatBits(s);
  }

  lemma VisibleRequests(p: Ppu)
    requires LineBegins(p)
    ensures var o, y := Run(p, LINE_CYCLES).o, Line(p.regs);
      y <= 143 && Status(o) == StatBit(p.regs, 3) + StatBit(p.regs, if y == 143 then 4 else 5) + Matches(p.regs, y + 1)
  {
    hide Run, StatBit, Status, Frames, ModeRequests, LineRequests, Matches, Line, LineLeaves;
    LineConserves(p);
    var o, r := Run(p, LINE_CYCLES).o, p.regs;
    StatBits(r);
    var cols, tail := o[..WIDTH], LineTail(p);
    assert o == cols + tail;
    OnlyDraws(cols, p.regs.ly, 0);
    CountAppend(cols, tail);
    var a, l := ModeRequests(true, r.stat, HBlank), LineRequests(r, r.ly + 1);
    var b := ModeRequests(true, r.stat, if r.ly < HEIGHT - 1 then OamSearch else VBlank);
    CountAppend(a + b, l);
    CountAppend(a, b);
    ModeCounts(r, HBlank);
    ModeCounts(r, if r.ly < HEIGHT - 1 then OamSearch else VBlank);
    LineCountsOne(r, r.ly + 1);
  }

  lemma BlankRequests(p: Ppu)
    requires p.Valid() && p.enabled && p.Mode() == VBlank && p.lineCycles == 0
    ensures var o, y := Run(p, LINE_CYCLES).o, Line(p.regs);
      && 144 <= y <= 153
      && Status(o) == (if y == 153 then StatBit(p.regs, 5) else 0) + Matches(p.regs, if y == 153 then 0 else y + 1)
  {
    hide Run, StatBit, Status, Frames, Matches, Line, EndOfLine;
    StatBits(p.regs);
    LineEndIsRun(p);
    EndCounts(p);
  }

  lemma {:induction false} LinesRequest(p: Ppu, y: nat)
    requires FrameBegins(p) && y <= 153
    ensures p.Valid() && Status(Run(p, LINE_CYCLES * y).o) == InLines(p.regs, y)
  {
    hide Run, StatBit, Status, Compare, Line, WrittenTo, Requests, Healthy, InLines;
    BeginsIsValid(p);
    if y == 0 {
      EmptyRun(p);
      CountOne(ItVBlank);
      NoLines(p.regs);
    } else {
      LinesRequest(p, y - 1);
      LinesConserve(p, y - 1);
      var r := Run(p, LINE_CYCLES * (y - 1));
      RunAppend(p, LINE_CYCLES * (y - 1), LINE_CYCLES);
      CountAppend(r.o, Run(r.p, LINE_CYCLES).o);
      SameBits(p.regs, r.p.regs);
      StatBits(r.p.regs);
      OneLineMore(p.regs, y - 1);
      if y - 1 < HEIGHT {
        VisibleRequests(r.p);
      } else {
        BlankRequests(r.p);
      }
    }
  }

  lemma NoLines(r: Regs)
    ensures InLines(r, 0) == 0
  {
  }

  lemma OneLineMore(r: Regs, y: nat)
    requires y < 153
    ensures InLines(r, y + 1) == InLines(r, y)
      + (if y < 144 then StatBit(r, 3) + StatBit(r, if y == 143 then 4 else 5) else 0) + Matches(r, y + 1)
  {
    hide StatBit, Compare;
    StatTimes(StatBit(r, 3), Least(y, 144), Least(y + 1, 144));
    StatTimes(StatBit(r, 5), Least(y, 143), Least(y + 1, 143));
  }

  lemma StatTimes(b: int, m: nat, n: nat)
    requires 0 <= b <= 1 && m <= n <= m + 1
    ensures b * n == b * m + if m < n then b else 0
  {
  }

  // A whole frame with LCD and settings left alone: the status interrupt once for each visible line's
  // horizontal blanking with bit 3, once for vertical blanking with bit 4, once for each of the 144 entries
  // into mode 2 with bit 5, and once with bit 6 if LYC is the number of a line.
  lemma FrameRequests(p: Ppu)
    requires FrameBegins(p)
    ensures p.Valid()
    ensures var o, r := Run(p, 70224).o, p.regs;
      && Requests(o, ItVBlank) == 1
      && Requests(o, ItLcdcStatus)
         == 144 * StatBit(r, 3) + StatBit(r, 4) + 144 * StatBit(r, 5)
            + (if StatBit(r, 6) == 1 && Compare(r) <= 153 then 1 else 0)
  {
    hide Run, StatBit, Requests, Compare, Line, WrittenTo, Healthy, NextFrame, Writes;
    BeginsIsValid(p);
    FrameConserves(p);
    LinesRequest(p, LAST_LINE);
    LinesConserve(p, LAST_LINE);
    var r := Run(p, LINE_CYCLES * LAST_LINE);
    RunAppend(p, LINE_CYCLES * LAST_LINE, LINE_CYCLES);
    CountAppend(r.o, Run(r.p, LINE_CYCLES).o);
    SameBits(p.regs, r.p.regs);
    StatBits(r.p.regs);
    BlankRequests(r.p);
  }
}
