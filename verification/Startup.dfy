/** From any moment of a running unit to the next whole frame, and from power-on to the picture. */
module Startup {
  import opened Bytes
  import opened Registers
  import opened Oam
  import opened Fetch
  import opened Interrupts
  import opened Outputs
  import opened PpuCore
  import opened Mode3
  import opened Batching
  import opened Conservation
  import opened Picture
  import opened Frame
  import opened History
  import opened Deadline

  // ---- The unit as a clock

  // How far the frame has got.
  function Clock(p: Ppu): nat
  {
    LINE_CYCLES * p.regs.ly + p.lineCycles
  }

  // Memories and settings are as they were.
  ghost predicate SameSettings(p: Ppu, p': Ppu)
  {
    && p'.Valid() && p'.enabled == p.enabled && p'.vram == p.vram && p'.oam == p.oam
    && p'.regs == p.regs.(ly := p'.regs.ly, stat := p'.regs.stat) && SameEnables(p'.regs.stat, p.regs.stat)
  }

  // The start of the line after p's.
  ghost predicate NextLineBegins(p: Ppu, p': Ppu)
  {
    && SameSettings(p, p') && p'.lineCycles == 0
    && p'.regs.ly == (if p.regs.ly == LAST_LINE then 0 else p.regs.ly + 1)
    && p'.Mode() == (if p'.regs.ly < HEIGHT then OamSearch else VBlank)
    && (p'.regs.ly == 0 ==> p'.winY == 0)
  }

  lemma BlankToLine(p: Ppu)
    requires p.Valid() && p.enabled && Blanking(p.regs)
    ensures NextLineBegins(p, Run(p, LINE_CYCLES - p.lineCycles).p)
  {
    hide Run, Pipe.Valid, ModeRequests, LineRequests;
    LineEndIsRun(p);
  }

  lemma EndedIsBlank(p: Ppu, e: Ppu)
    requires p.Valid() && p.Mode() == DataXfer && LineEnded(p, e)
    ensures Blanking(e.regs) && SameSettings(p, e) && e.regs.ly == p.regs.ly
  {
  }

  lemma ThenNextLine(p: Ppu, q: Ppu, r: Ppu)
    requires SameSettings(p, q) && q.regs.ly == p.regs.ly && NextLineBegins(q, r)
    ensures NextLineBegins(p, r)
  {
  }

  lemma InLine(p: Ppu)
    requires p.Valid()
    ensures p.lineCycles < LINE_CYCLES
  {
  }

  lemma TransferToLine(p: Ppu)
    requires Healthy(p) && p.enabled && p.Mode() == DataXfer
    ensures p.Valid() && p.lineCycles < LINE_CYCLES
    ensures NextLineBegins(p, Run(p, LINE_CYCLES - p.lineCycles).p)
  {
    hide Run, Healthy, Potential, NextLineBegins, LineEnded, SameSettings, Ppu.Valid, DotsLeft, DrawsRest, Blanking;
    InRange(p);
    TransferConserves(p);
    var n := DotsLeft(p);
    var e := Run(p, n).p;
    EndedIsBlank(p, e);
    InLine(e);
    KeptEnabled(p, e);
    BlankToLine(e);
    RunAppend(p, n, LINE_CYCLES - e.lineCycles);
    ThenNextLine(p, e, Run(e, LINE_CYCLES - e.lineCycles).p);
  }

  lemma SearchToTransfer(p: Ppu)
    requires Healthy(p) && p.enabled && p.Mode() == OamSearch
    ensures p.Valid() && p.lineCycles < OAM_CYCLES
    ensures var q := Run(p, OAM_CYCLES - p.lineCycles).p;
      && Healthy(q) && q.Mode() == DataXfer && q.lineCycles == OAM_CYCLES
      && SameSettings(p, q) && q.regs.ly == p.regs.ly
  {
    hide Run, Linked, Potential, BgReachable, StartTransfer;
    RunHealthy(p, OAM_CYCLES - p.lineCycles);
    SearchIsRun(p, OAM_CYCLES - p.lineCycles);
    TransferStart(p);
  }

  // The rest of a line, from any point in it.
  lemma LineComes(p: Ppu)
    requires Healthy(p) && p.enabled
    ensures p.Valid() && p.lineCycles < LINE_CYCLES
    ensures var r := Run(p, LINE_CYCLES - p.lineCycles).p; NextLineBegins(p, r) && Healthy(r)
  {
    hide Run, Linked, Potential, BgReachable, NextLineBegins, SameSettings;
    RunHealthy(p, LINE_CYCLES - p.lineCycles);
    if p.Mode() == OamSearch {
      SearchToTransfer(p);
      var n := OAM_CYCLES - p.lineCycles;
      var q := Run(p, n).p;
      assert q.enabled by { KeptEnabled(p, q); }
      TransferToLine(q);
      RunAppend(p, n, LINE_CYCLES - OAM_CYCLES);
      ThenNextLine(p, q, Run(q, LINE_CYCLES - OAM_CYCLES).p);
    } else if p.Mode() == DataXfer {
      TransferToLine(p);
    } else {
      BlankToLine(p);
    }
  }

  lemma KeptEnabled(p: Ppu, q: Ppu)
    requires SameSettings(p, q)
    ensures q.enabled == p.enabled
  {
  }

  lemma SettingsChain(p: Ppu, q: Ppu, r: Ppu)
    requires SameSettings(p, q) && SameSettings(q, r)
    ensures SameSettings(p, r)
  {
  }

  lemma LineIs(p: Ppu, r: Ppu)
    requires p.Valid() && NextLineBegins(p, r) && p.enabled
    ensures SameSettings(p, r) && r.enabled && r.lineCycles == 0 && r.regs.ly <= LAST_LINE
    ensures r.regs.ly == (if p.regs.ly == LAST_LINE then 0 else p.regs.ly + 1)
    ensures r.regs.ly == 0 && Healthy(r) ==> FrameBegins(r) && r.winY == 0
  {
    hide Linked, BgReachable, Potential;
  }

  // A running unit, wherever it is and in whatever state its pipeline, starts the next frame when the
  // frame's 70224 dots are over.
  lemma {:induction false} FrameComes(p: Ppu)
    requires Healthy(p) && p.enabled
    ensures p.Valid() && Clock(p) < FRAME_CYCLES
    ensures var r := Run(p, FRAME_CYCLES - Clock(p)).p; FrameBegins(r) && r.winY == 0 && SameSettings(p, r)
    decreases LAST_LINE - p.regs.ly
  {
    hide Run, Healthy, NextLineBegins, SameSettings, FrameBegins;
    InRange(p);
    LineComes(p);
    var n := LINE_CYCLES - p.lineCycles;
    var r := Run(p, n).p;
    LineIs(p, r);
    if r.regs.ly > 0 {
      FrameComes(r);
      RunAppend(p, n, FRAME_CYCLES - Clock(r));
      SettingsChain(p, r, Run(r, FRAME_CYCLES - Clock(r)).p);
    }
  }

  lemma InRange(p: Ppu)
    requires Healthy(p)
    ensures p.Valid() && p.regs.ly <= LAST_LINE && p.lineCycles < LINE_CYCLES && Clock(p) < FRAME_CYCLES
  {
    hide Linked, Potential, BgReachable;
  }

  // A frame is conserved however its cycles are batched.
  lemma FrameConservesByBatches(p: Ppu, sizes: seq<nat>)
    requires FrameBegins(p) && Sum(sizes) == FRAME_CYCLES
    ensures p.Valid()
    ensures var r := Batches(p, sizes);
      && NextFrame(p, r.p) && Requests(r.o, ItVBlank) == 1
      && forall row: Row, c: Col :: Writes(r.o, row, c) == 1
  {
    hide Run, Batches, Healthy, FrameBegins, NextFrame, Requests, Writes;
    BeginsIsValid(p);
    BatchesAreRun(p, sizes);
    FrameConserves(p);
  }

  // ---- The picture, from any moment

  // The dots from here to the end of the second frame after this one.
  function DotsToPicture(p: Ppu): int
  {
    3 * FRAME_CYCLES - Clock(p)
  }

  lemma PictureIgnoresStat(p: Ppu, q: Ppu, y: Row, c: Col)
    requires FrameStart(p) && NextFrame(p, q)
    ensures PictureAt(q, y, c) == PictureAt(p, y, c)
  {
    hide LevelAt, LineObjs;
    var s, t := Fetch.Scene(p.regs.(ly := y), p.vram, p.found), Fetch.Scene(q.regs.(ly := y), q.vram, q.found);
    LevelIgnoresStat(s, t, WinRow(p.regs, y), WindowLeft(p.regs), LineObjs(p.oam, y, p.regs.lcdc.tallObjs), c);
  }

  lemma NextIsSame(p: Ppu, q: Ppu)
    requires NextFrame(p, q) && p.enabled && p.Valid()
    ensures SameSettings(p, q) && FrameStart(q)
  {
  }

  lemma FitsKept(p: Ppu, q: Ppu)
    requires SameSettings(p, q) && WindowFits(p.regs)
    ensures WindowFits(q.regs)
  {
  }

  // The frame that is under way ends, the next one resets the pipeline, and the one after it is the
  // picture, however the cycles are batched.
  lemma PictureComes(p: Ppu, sizes: seq<nat>)
    requires Healthy(p) && p.enabled && WindowFits(p.regs) && Sum(sizes) == DotsToPicture(p)
    ensures p.Valid()
    ensures var r := Batches(p, sizes);
      && FrameStart(r.p) && SameSettings(p, r.p)
      && (forall y: Row, c: Col, before: Byte :: Cell(r.o, y, c, before) == PictureAt(r.p, y, c))
      && (forall y: Row, c: Col :: BytesShow(r.p, y, c, PictureAt(r.p, y, c)))
  {
    hide Run, Batches, Healthy, SameSettings, FrameBegins, FrameStart, NextFrame, WindowFits, PictureAt, Cell, Writes,
         Requests, BytesShow;
    InRange(p);
    BatchesAreRun(p, sizes);
    var n := FRAME_CYCLES - Clock(p);
    FrameComes(p);
    var a := Run(p, n);
    BeginsIsValid(a.p);
    FrameConserves(a.p);
    var b := Run(a.p, FRAME_CYCLES);
    NextIsSame(a.p, b.p);
    SettingsChain(p, a.p, b.p);
    FitsKept(p, b.p);
    LastFrame(b.p);
    var c := Run(b.p, FRAME_CYCLES);
    SettingsChain(p, b.p, c.p);
    RunAppend(p, n, FRAME_CYCLES);
    RunAppend(p, n + FRAME_CYCLES, FRAME_CYCLES);
    forall y: Row, x: Col, before: Byte
      ensures Cell((a.o + b.o) + c.o, y, x, before) == PictureAt(c.p, y, x)
    {
      OutputAppend(a.o + b.o, c.o, y, x, before, ItVBlank);
    }
    forall y: Row, x: Col
      ensures BytesShow(c.p, y, x, PictureAt(c.p, y, x))
    {
      PictureIsFromBytes(c.p, y, x);
    }
  }

  // A frame in single dots, against the registers it ends with.
  lemma LastFrame(p: Ppu)
    requires FrameStart(p) && WindowFits(p.regs)
    ensures p.Valid()
    ensures var r := Run(p, FRAME_CYCLES);
      && FrameStart(r.p) && SameSettings(p, r.p)
      && forall y: Row, c: Col, before: Byte :: Cell(r.o, y, c, before) == PictureAt(r.p, y, c)
  {
    hide Run, Batches, Healthy, SameSettings, FrameBegins, FrameStart, NextFrame, WindowFits, PictureAt, Cell, Writes,
         Requests;
    StartIsValid(p);
    var whole := [FRAME_CYCLES];
    assert Sum(whole) == FRAME_CYCLES by { assert whole[1..] == []; }
    BatchesAreRun(p, whole);
    FrameShowsPicture(p, whole);
    var r := Run(p, FRAME_CYCLES);
    assert p.enabled by { RunningStart(p); }
    NextIsSame(p, r.p);
    forall y: Row, c: Col
      ensures PictureAt(r.p, y, c) == PictureAt(p, y, c)
    {
      PictureIgnoresStat(p, r.p, y, c);
    }
  }

  lemma RunningStart(p: Ppu)
    requires FrameStart(p)
    ensures p.enabled
  {
  }

  // ---- From power-on

  // Whatever has been written since power-on, short of a harmful SCX write, every line meets its
  // deadline.
  lemma HealthyFromPowerOn(p: Ppu, events: seq<Event>)
    requires PoweredOn(p) && AllSafe(p, events)
    ensures Healthy(AfterAll(p, events))
  {
    hide Healthy, AfterAll;
    PowerOnIsHealthy(p);
    AlwaysHealthy(p, events);
  }

  // So, once the LCD is on and left alone, the picture comes.
  lemma PictureFromPowerOn(p: Ppu, events: seq<Event>, sizes: seq<nat>)
    requires PoweredOn(p) && AllSafe(p, events)
    requires var q := AfterAll(p, events); q.enabled && WindowFits(q.regs) && Sum(sizes) == DotsToPicture(q)
    ensures var q := AfterAll(p, events);
      var r := Batches(q, sizes);
      && FrameStart(r.p) && SameSettings(q, r.p)
      && (forall y: Row, c: Col, before: Byte :: Cell(r.o, y, c, before) == PictureAt(r.p, y, c))
      && (forall y: Row, c: Col :: BytesShow(r.p, y, c, PictureAt(r.p, y, c)))
  {
    hide Healthy, AfterAll, Batches, PictureAt, FrameStart, SameSettings, Cell, BytesShow;
    HealthyFromPowerOn(p, events);
    PictureComes(AfterAll(p, events), sizes);
  }
}
