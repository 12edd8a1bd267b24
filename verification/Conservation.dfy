/** What a line and a frame keep, whatever the picture: every cell once, one VBlank, back to the start. */
module Conservation {
  import opened Bytes
  import opened Registers
  import opened PixelFifo
  import opened Oam
  import opened Fetch
  import opened Interrupts
  import opened Outputs
  import opened PpuCore
  import opened Mode3
  import opened Batching

  // ---- One dot of mode 3, over any pipeline

  // Nothing happens on screen.
  ghost predicate Waits(p: Ppu, d: Out)
  {
    d.p.Mode() == DataXfer && d.p.x == p.x && d.p.winY == p.winY && d.o == []
  }

  // One column is done: drawn, if it is on screen.
  ghost predicate Moves(p: Ppu, d: Out)
  {
    && d.p.Mode() == DataXfer && d.p.x == p.x + 1 < WIDTH && d.p.winY == p.winY
    && |d.o| == (if p.x >= 0 then 1 else 0) && DrawsFrom(d.o, p.regs.ly, p.x)
  }

  // The last column is drawn and the line is over.
  ghost predicate Closes(p: Ppu, d: Out)
  {
    && p.x == WIDTH - 1 && d.p.Mode() == HBlank
    && d.p.pipe.f == d.p.pipe.f.Reset() && d.p.pipe.q == EMPTY
    && d.p.winY == (if p.regs.lcdc.winOn && p.regs.ly >= p.regs.wy then (p.winY + 1) % 0x100 else p.winY)
    && |d.o| >= 1 && DrawsFrom(d.o[..1], p.regs.ly, p.x)
    && d.o[1..] == ModeRequests(p.enabled, p.regs.stat, HBlank)
  }

  // Columns from, from + 1, ... of one row.
  ghost predicate DrawsFrom(o: seq<Output>, y: int, from: int)
  {
    forall i :: 0 <= i < |o| ==> o[i].Draw? && o[i].row == y && o[i].col == from + i
  }

  lemma ShiftMoves(p: Ppu)
    requires p.Valid() && p.Mode() == DataXfer && !Stalled(p)
    ensures Moves(p, Shifted(p)) || Closes(p, Shifted(p))
  {
    hide Fifo.Popped, Fifo.Output, Level;
    if p.x == WIDTH - 1 {
      assert Shifted(p).o == Drawn(p) + ModeRequests(p.enabled, p.regs.stat, HBlank);
    }
  }

  lemma RestMoves(p: Ppu)
    requires p.Valid() && p.Mode() == DataXfer
    ensures var d := WindowAndShift(p); Waits(p, d) || Moves(p, d) || Closes(p, d)
  {
    hide Shifted, Moves, Closes;
    if !WindowDue(p) && !Stalled(p) {
      ShiftMoves(p);
    }
  }

  lemma XferDotMoves(p: Ppu)
    requires p.Valid() && p.Mode() == DataXfer
    ensures var d := XferDot(p); Waits(p, d) || Moves(p, d) || Closes(p, d)
  {
    hide WindowAndShift, FetchTicked, StartObject, ObjectDue, FetchState.Reset;
    if p.pipe.f.sprite.Some? {
      RestMoves(FetchTicked(p));
    } else {
      RestMoves(FetchTicked(ObjectStarted(p)));
    }
  }

  // ---- A line under way

  // Nothing the picture is made of has changed; only the mode may have.
  ghost predicate SameLine(p: Ppu, p': Ppu)
  {
    && p'.regs == p.regs.(stat := p.regs.stat.(mode := p'.Mode())) && p'.enabled == p.enabled
    && p'.vram == p.vram && p'.oam == p.oam && p'.found == p.found && p'.numObjs == p.numObjs
  }

  // The state when the last column has been drawn.
  ghost predicate LineEnded(p: Ppu, p': Ppu)
  {
    && p'.Mode() == HBlank && p'.Valid() && SameLine(p, p')
    && p'.pipe.f == p'.pipe.f.Reset() && p'.pipe.q == EMPTY
    && p'.winY == WindowRowAfter(p)
  }

  // The window's row counter after this line.
  function WindowRowAfter(p: Ppu): Byte
  {
    if p.regs.lcdc.winOn && p.regs.ly >= p.regs.wy then (p.winY + 1) % 0x100 else p.winY
  }

  // How many dots are left until the line is drawn.
  ghost function DotsLeft(p: Ppu): (n: nat)
    requires Healthy(p) && p.Mode() == DataXfer && p.enabled
    ensures 1 <= n <= Potential(p)
    decreases Potential(p)
  {
    PotentialBounds(p);
    XferHealthy(p);
    if Dot(p).p.Mode() == DataXfer then 1 + DotsLeft(Dot(p).p) else 1
  }

  // The first column still to be drawn.
  ghost function FromX(p: Ppu): nat
    requires p.x < WIDTH
  {
    Max(0, p.x)
  }

  lemma DotMoves(p: Ppu)
    requires p.Valid() && p.Mode() == DataXfer && p.enabled
    ensures var d := Dot(p);
      SameLine(p, d.p) && if d.p.Mode() == DataXfer then Waits(p, d) || Moves(p, d) else Closes(p, d)
  {
    hide XferDot, FetchTicked, FetchState.Reset, ModeRequests;
    XferDotMoves(DelaySpent(p));
  }

  // What the rest of mode 3 puts out: the missing columns, once and in order, then the request.
  ghost predicate DrawsRest(p: Ppu, o: seq<Output>)
    requires p.x < WIDTH
  {
    var n := WIDTH - FromX(p);
    && |o| >= n && DrawsFrom(o[..n], p.regs.ly, FromX(p))
    && o[n..] == ModeRequests(p.enabled, p.regs.stat, HBlank)
  }

  lemma {:induction false} TransferConserves(p: Ppu)
    requires Healthy(p) && p.Mode() == DataXfer && p.enabled
    ensures p.Valid() && p.x < WIDTH
    ensures var r := Run(p, DotsLeft(p));
      LineEnded(p, r.p) && r.p.lineCycles == p.lineCycles + DotsLeft(p) && DrawsRest(p, r.o)
    decreases Potential(p)
  {
    hide Potential, Linked, Dot, BgReachable, ModeRequests, FetchState.Reset, Waits, Moves, Closes, DrawsRest, SameLine;
    PotentialBounds(p);
    XferHealthy(p);
    DotMoves(p);
    var d := Dot(p);
    StillOnScreen(p, d);
    if d.p.Mode() == DataXfer {
      PotentialBounds(d.p);
      TransferConserves(d.p);
      OneDotEarlier(p, d, Run(d.p, DotsLeft(d.p)));
    } else {
      RunOne(p);
      LastDotCloses(p, d);
    }
  }

  lemma StillOnScreen(p: Ppu, d: Out)
    requires Healthy(p) && p.Mode() == DataXfer && Healthy(d.p)
    ensures p.Valid() && p.x < WIDTH && (d.p.Mode() == DataXfer ==> d.p.Valid() && d.p.x < WIDTH)
  {
  }

  lemma OneDotEarlier(p: Ppu, d: Out, rest: Out)
    requires p.x < WIDTH && d.p.Mode() == DataXfer && p.Mode() == DataXfer && SameLine(p, d.p)
    requires Waits(p, d) || Moves(p, d)
    requires d.p.x < WIDTH && LineEnded(d.p, rest.p) && DrawsRest(d.p, rest.o)
    ensures LineEnded(p, rest.p) && DrawsRest(p, d.o + rest.o)
  {
    hide ModeRequests;
    var n, m := WIDTH - FromX(p), WIDTH - FromX(d.p);
    assert d.p.regs == p.regs;
    assert (d.o + rest.o)[..n] == d.o + rest.o[..m];
    assert (d.o + rest.o)[n..] == rest.o[m..];
  }

  lemma LastDotCloses(p: Ppu, d: Out)
    requires p.x < WIDTH && d.p.Mode() == HBlank && d.p.Valid() && SameLine(p, d.p) && Closes(p, d)
    ensures LineEnded(p, d.p) && DrawsRest(p, d.o)
  {
    hide ModeRequests;
  }

  // ---- A line

  // The start of a visible line, whatever state the pipeline is in.
  ghost predicate LineBegins(p: Ppu)
  {
    Healthy(p) && p.enabled && p.Mode() == OamSearch && p.lineCycles == 0
  }

  // The same, with the pipeline as the end of a line leaves it.
  ghost predicate LineStart(p: Ppu)
  {
    && p.Valid() && p.enabled && p.lineCycles == 0 && p.Mode() == OamSearch
    && p.pipe.f == p.pipe.f.Reset() && p.pipe.q == EMPTY
  }

  lemma StartBegins(p: Ppu)
    requires LineStart(p)
    ensures LineBegins(p)
  {
  }

  lemma TransferStart(p: Ppu)
    requires p.Valid() && p.Mode() == OamSearch
    ensures var q := StartTransfer(p);
      && q.regs == p.regs.(stat := p.regs.stat.(mode := DataXfer)) && q.enabled == p.enabled && q.winY == p.winY
      && q.vram == p.vram && q.oam == p.oam && q.x == -8 && q.pipe == p.pipe && q.curObj == 0
  {
    hide LineObjs;
  }

  // Mode 2: eighty dots.
  lemma SearchConserves(p: Ppu)
    requires LineBegins(p)
    ensures var q := StartTransfer(p).(lineCycles := OAM_CYCLES);
      Run(p, OAM_CYCLES) == Out(q, []) && Healthy(q) && q.enabled && q.Mode() == DataXfer
  {
    hide Run, LineObjs, Linked, Potential, StartTransfer;
    SearchIsRun(p, OAM_CYCLES);
    TransferStart(p);
    TransferStartsHealthy(p);
    PotentialIgnoresClock(StartTransfer(p), OAM_CYCLES);
  }

  lemma PotentialIgnoresClock(p: Ppu, c: nat)
    requires Inv(p) && p.Mode() == DataXfer && c < LINE_CYCLES
    ensures Inv(p.(lineCycles := c)) && Potential(p.(lineCycles := c)) == Potential(p)
  {
  }

  // Where a line leaves the unit: at the start of the next one, with the window row counted on and
  // the pipeline reset.
  ghost predicate LineLeaves(p: Ppu, p': Ppu)
    requires p.regs.ly < HEIGHT
  {
    && p'.Valid() && p'.enabled && p'.lineCycles == 0
    && p'.pipe.f == p'.pipe.f.Reset() && p'.pipe.q == EMPTY
    && p'.vram == p.vram && p'.oam == p.oam
    && p'.regs == p.regs.(ly := p.regs.ly + 1, stat := p'.regs.stat)
    && SameEnables(p'.regs.stat, p.regs.stat)
    && p'.Mode() == (if p.regs.ly < HEIGHT - 1 then OamSearch else VBlank)
    && p'.winY == WindowRowAfter(p)
  }

  ghost predicate SameEnables(a: Stat, b: Stat)
  {
    && a.coincidenceIrq == b.coincidenceIrq && a.oamIrq == b.oamIrq
    && a.vblankIrq == b.vblankIrq && a.hblankIrq == b.hblankIrq
  }

  // The requests at the end of a line.
  ghost function LineTail(p: Ppu): seq<Output>
    requires p.regs.ly < HEIGHT
  {
    ModeRequests(true, p.regs.stat, HBlank)
    + ModeRequests(true, p.regs.stat, if p.regs.ly < HEIGHT - 1 then OamSearch else VBlank)
    + LineRequests(p.regs, p.regs.ly + 1)
  }

  lemma EndLeaves(p: Ppu, e: Ppu)
    requires LineBegins(p) && LineEnded(StartTransfer(p), e)
    ensures Blanking(e.regs) && e.enabled && p.regs.ly < HEIGHT
    ensures LineLeaves(p, EndOfLine(e).p.(lineCycles := 0))
    ensures ModeRequests(true, p.regs.stat, HBlank) + EndOfLine(e).o == LineTail(p)
  {
    hide LineObjs, Linked;
    TransferStart(p);
    assert EndOfLine(e).o == ModeRequests(true, e.regs.stat, NextMode(e.regs)) + LineRequests(e.regs, p.regs.ly + 1);
  }

  // Blanking runs to the end of the line.
  lemma BlankRun(p: Ppu, e: Ppu)
    requires LineBegins(p) && LineEnded(StartTransfer(p), e)
    ensures p.regs.ly < HEIGHT && e.lineCycles < LINE_CYCLES
    ensures var r := Run(e, LINE_CYCLES - e.lineCycles);
      LineLeaves(p, r.p) && ModeRequests(true, p.regs.stat, HBlank) + r.o == LineTail(p)
  {
    hide Run, LineObjs, StartTransfer, EndOfLine, ModeRequests, LineTail, LineLeaves;
    EndLeaves(p, e);
    LineEndIsRun(e);
  }

  // What a line puts out: its columns, once each and in order, then its requests.
  ghost predicate DrawsLine(p: Ppu, o: seq<Output>)
    requires p.regs.ly < HEIGHT
  {
    |o| >= WIDTH && DrawsRow(o[..WIDTH], p.regs.ly) && o[WIDTH..] == LineTail(p)
  }

  lemma TransferAndBlank(p: Ppu, q: Ppu)
    requires LineBegins(p) && q == StartTransfer(p).(lineCycles := OAM_CYCLES)
    requires Healthy(q) && q.enabled && q.Mode() == DataXfer
    ensures p.regs.ly < HEIGHT && q.Valid()
    ensures var r := Run(q, LINE_CYCLES - OAM_CYCLES); LineLeaves(p, r.p) && DrawsLine(p, r.o)
  {
    hide Run, LineObjs, Linked, Potential, StartTransfer, ModeRequests, LineTail, LineLeaves, BgReachable, DotsLeft,
         DrawsRest;
    TransferConserves(q);
    var n := DotsLeft(q);
    var t := Run(q, n);
    TransferStart(p);
    assert LineEnded(StartTransfer(p), t.p);
    BlankRun(p, t.p);
    var b := Run(t.p, LINE_CYCLES - t.p.lineCycles);
    RunAppend(q, n, LINE_CYCLES - OAM_CYCLES - n);
    RestAndTail(p, q, t.o, b.o);
  }

  lemma RestAndTail(p: Ppu, q: Ppu, cols: seq<Output>, end: seq<Output>)
    requires p.regs.ly < HEIGHT && q.x == -8 && q.regs.ly == p.regs.ly && q.enabled
    requires q.regs.stat == p.regs.stat.(mode := DataXfer) && DrawsRest(q, cols)
    requires ModeRequests(true, p.regs.stat, HBlank) + end == LineTail(p)
    ensures DrawsLine(p, cols + end)
  {
    hide LineTail;
    assert (cols + end)[..WIDTH] == cols[..WIDTH];
    assert (cols + end)[WIDTH..] == cols[WIDTH..] + end;
  }

  // 456 dots from the start of any visible line.
  lemma LineConserves(p: Ppu)
    requires LineBegins(p)
    ensures p.regs.ly < HEIGHT
    ensures var r := Run(p, LINE_CYCLES); LineLeaves(p, r.p) && DrawsLine(p, r.o)
  {
    hide Run, LineObjs, Potential, Linked, StartTransfer, LineTail, LineLeaves, DrawsLine;
    SearchConserves(p);
    var q := StartTransfer(p).(lineCycles := OAM_CYCLES);
    TransferAndBlank(p, q);
    RunAppend(p, OAM_CYCLES, LINE_CYCLES - OAM_CYCLES);
    var o := Run(q, LINE_CYCLES - OAM_CYCLES).o;
    assert [] + o == o;
  }

  // ---- What the lines put out, in numbers

  lemma TailRequests(p: Ppu, row: int, c: int, before: Byte)
    requires p.regs.ly < HEIGHT
    ensures var o := LineTail(p);
      && Writes(o, row, c) == 0 && Cell(o, row, c, before) == before
      && Requests(o, ItVBlank) == (if p.regs.ly == HEIGHT - 1 then 1 else 0)
  {
    hide ModeRequests, LineRequests, Writes, Cell, Requests;
    TailOnlyRequests(p);
    RequestsDrawNothing(LineTail(p), row, c, before);
    var a, b := ModeRequests(true, p.regs.stat, HBlank),
                ModeRequests(true, p.regs.stat, if p.regs.ly < HEIGHT - 1 then OamSearch else VBlank);
    var l := LineRequests(p.regs, p.regs.ly + 1);
    OutputAppend(a + b, l, row, c, before, ItVBlank);
    OutputAppend(a, b, row, c, before, ItVBlank);
    ModeVBlanks(p.regs.stat, HBlank);
    ModeVBlanks(p.regs.stat, if p.regs.ly < HEIGHT - 1 then OamSearch else VBlank);
    LineVBlanks(p.regs, p.regs.ly + 1);
  }

  lemma TailOnlyRequests(p: Ppu)
    requires p.regs.ly < HEIGHT
    ensures OnlyRequests(LineTail(p))
  {
  }

  lemma ModeVBlanks(s: Stat, mode: Mode)
    ensures Requests(ModeRequests(true, s, mode), ItVBlank) == if mode == VBlank then 1 else 0
  {
    var v := if mode == VBlank then [Irq(ItVBlank)] else [];
    var l := if ModeIrq(s, mode) then [Irq(ItLcdcStatus)] else [];
    assert ModeRequests(true, s, mode) == v + l;
    OutputAppend(v, l, 0, 0, 0, ItVBlank);
  }

  lemma LineVBlanks(r: Regs, line: Byte)
    ensures Requests(LineRequests(r, line), ItVBlank) == 0
  {
  }

  // A line of vertical blanking draws nothing and requests no frame interrupt.
  lemma BlankOutput(r: Regs)
    requires r.stat.mode == VBlank && Blanking(r)
    ensures var o := (if NextMode(r) != r.stat.mode then ModeRequests(true, r.stat, NextMode(r)) else [])
                     + LineRequests(r, NextLine(r));
      OnlyRequests(o) && Requests(o, ItVBlank) == 0
  {
    hide Requests;
    var m := if NextMode(r) != VBlank then ModeRequests(true, r.stat, NextMode(r)) else [];
    LineVBlanks(r, NextLine(r));
    if NextMode(r) != VBlank {
      ModeVBlanks(r.stat, NextMode(r));
    } else {
      assert Requests(m, ItVBlank) == 0 by { NoRequests(); }
    }
    OutputAppend(m, LineRequests(r, NextLine(r)), 0, 0, 0, ItVBlank);
  }

  lemma NoRequests()
    ensures Requests([], ItVBlank) == 0
  {
  }

  // A line writes its own cells once and no others, and the last visible one requests the frame
  // interrupt.
  lemma LineCounts(p: Ppu, o: seq<Output>, row: int, c: Col)
    requires p.regs.ly < HEIGHT && DrawsLine(p, o)
    ensures Writes(o, row, c) == if row == p.regs.ly then 1 else 0
    ensures Requests(o, ItVBlank) == if p.regs.ly == HEIGHT - 1 then 1 else 0
  {
    hide DrawsRow, LineTail, Writes, Requests, Cell;
    var cols := o[..WIDTH];
    assert o == cols + LineTail(p);
    RowCells(cols, p.regs.ly, row, c, 0, ItVBlank);
    TailRequests(p, row, c, 0);
    OutputAppend(cols, LineTail(p), row, c, 0, ItVBlank);
  }

  // ---- A frame

  const FRAME_CYCLES := 70224

  ghost predicate FrameStart(p: Ppu)
  {
    LineStart(p) && p.regs.ly == 0 && p.winY == 0
  }

  // The start of the frame after the one that began in p.
  ghost predicate NextFrame(p: Ppu, p': Ppu)
  {
    && FrameStart(p') && p'.vram == p.vram && p'.oam == p.oam
    && p'.regs == p.regs.(stat := p.regs.stat.(coincidence := p.regs.lyc == 0))
  }

  // The start of line y of the frame that began in p.
  ghost predicate BegunLine(p: Ppu, y: nat, p': Ppu)
    requires y <= LAST_LINE
  {
    && p'.Valid() && p'.enabled && p'.lineCycles == 0
    && (y > 0 ==> p'.pipe.f == p'.pipe.f.Reset() && p'.pipe.q == EMPTY)
    && p'.vram == p.vram && p'.oam == p.oam
    && p'.regs == p.regs.(ly := y, stat := p'.regs.stat) && SameEnables(p'.regs.stat, p.regs.stat)
    && p'.Mode() == (if y < HEIGHT then OamSearch else VBlank)
  }

  // Rows 0 to y - 1 have been written once, and no other cell.
  ghost predicate WrittenTo(y: nat, o: seq<Output>)
  {
    forall row: Row, c: Col :: Writes(o, row, c) == if row < y then 1 else 0
  }

  lemma OneRowMore(y: Row, before: seq<Output>, p: Ppu, o: seq<Output>)
    requires p.regs.ly == y && DrawsLine(p, o) && WrittenTo(y, before)
    ensures WrittenTo(y + 1, before + o)
  {
    hide Writes, DrawsLine;
    forall row: Row, c: Col
      ensures Writes(before + o, row, c) == if row < y + 1 then 1 else 0
    {
      LineCounts(p, o, row, c);
      OutputAppend(before, o, row, c, 0, ItVBlank);
    }
  }

  lemma NoRowMore(y: nat, before: seq<Output>, o: seq<Output>)
    requires y >= HEIGHT && OnlyRequests(o) && WrittenTo(y, before)
    ensures WrittenTo(y + 1, before + o)
  {
    hide Writes;
    forall row: Row, c: Col
      ensures Writes(before + o, row, c) == if row < y + 1 then 1 else 0
    {
      RequestsDrawNothing(o, row, c, 0);
      OutputAppend(before, o, row, c, 0, ItVBlank);
    }
  }

  // The next line of vertical blanking, or the next frame.
  lemma BlankLine(p: Ppu, y: nat, p': Ppu)
    requires HEIGHT <= y <= LAST_LINE && BegunLine(p, y, p') && p.regs.ly == 0 && p.Mode() == OamSearch
    ensures var r := Run(p', LINE_CYCLES);
      && (if y < LAST_LINE then BegunLine(p, y + 1, r.p) && r.p.winY == p'.winY else NextFrame(p, r.p))
      && OnlyRequests(r.o) && Requests(r.o, ItVBlank) == 0
  {
    hide Run, Requests, ModeRequests, LineRequests, OnlyRequests;
    LineEndIsRun(p');
    BlankOutput(p'.regs);
  }

  lemma VisibleLine(p: Ppu, y: Row, p': Ppu)
    requires BegunLine(p, y, p') && Healthy(p')
    ensures var r := Run(p', LINE_CYCLES);
      && BegunLine(p, y + 1, r.p) && DrawsLine(p', r.o)
      && Requests(r.o, ItVBlank) == (if y == HEIGHT - 1 then 1 else 0)
  {
    hide Run, DrawsLine, Requests, Linked;
    LineConserves(p');
    LineCounts(p', Run(p', LINE_CYCLES).o, y, 0);
  }

  // The start of a frame, whatever state the pipeline and the window row are in.
  ghost predicate FrameBegins(p: Ppu)
  {
    LineBegins(p) && p.regs.ly == 0
  }

  lemma {:induction false} LinesConserve(p: Ppu, y: nat)
    requires FrameBegins(p) && y <= LAST_LINE
    ensures p.Valid()
    ensures var r := Run(p, LINE_CYCLES * y);
      && BegunLine(p, y, r.p) && Healthy(r.p) && WrittenTo(y, r.o)
      && Requests(r.o, ItVBlank) == if y < HEIGHT then 0 else 1
  {
    hide Run, WrittenTo, Requests, OnlyRequests, Healthy, DrawsLine;
    BeginsIsValid(p);
    RunHealthy(p, LINE_CYCLES * y);
    if y == 0 {
      EmptyRun(p);
      NothingWritten();
      NoRequests();
    } else {
      LinesConserve(p, y - 1);
      var r := Run(p, LINE_CYCLES * (y - 1));
      var l := Run(r.p, LINE_CYCLES);
      RunAppend(p, LINE_CYCLES * (y - 1), LINE_CYCLES);
      OutputAppend(r.o, l.o, 0, 0, 0, ItVBlank);
      if y - 1 < HEIGHT {
        VisibleLine(p, y - 1, r.p);
        OneRowMore(y - 1, r.o, r.p, l.o);
      } else {
        BlankLine(p, y - 1, r.p);
        NoRowMore(y - 1, r.o, l.o);
      }
    }
  }

  lemma BeginsIsValid(p: Ppu)
    requires FrameBegins(p)
    ensures p.Valid() && Healthy(p) && p.regs.ly == 0 && p.Mode() == OamSearch && p.enabled
  {
  }

  lemma NothingWritten()
    ensures WrittenTo(0, [])
  {
  }

  // From the start of any frame, with the pipeline as it may be: 70224 dots write every cell of the
  // frame buffer exactly once, request the frame interrupt exactly once, and lead to the start of
  // the next frame, with the pipeline reset and registers and memories as they were.
  lemma FrameConserves(p: Ppu)
    requires FrameBegins(p)
    ensures p.Valid()
    ensures var r := Run(p, FRAME_CYCLES);
      && NextFrame(p, r.p) && Requests(r.o, ItVBlank) == 1
      && forall row: Row, c: Col :: Writes(r.o, row, c) == 1
  {
    hide Run, Requests, OnlyRequests, Writes, NextFrame, FrameBegins, BegunLine, Healthy;
    BeginsIsValid(p);
    LinesConserve(p, LAST_LINE);
    var r := Run(p, LINE_CYCLES * LAST_LINE);
    var l := Run(r.p, LINE_CYCLES);
    BlankLine(p, LAST_LINE, r.p);
    NoRowMore(LAST_LINE, r.o, l.o);
    RunAppend(p, LINE_CYCLES * LAST_LINE, LINE_CYCLES);
    OutputAppend(r.o, l.o, 0, 0, 0, ItVBlank);
  }
}
