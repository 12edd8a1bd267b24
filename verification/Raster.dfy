/** A frame whose registers and memories are written between its lines: each line is drawn from its own. */
module Raster {
  import opened Bytes
  import opened Registers
  import opened Fetch
  import opened Interrupts
  import opened Outputs
  import opened PpuCore
  import opened Conservation
  import opened Line
  import opened Frame
  import History

  // Anything the bus can do but switching the LCD off.
  predicate KeepsOn(e: History.Event)
  {
    !e.Tick? && (e.Write? && e.addr == LCDC_ADDR ==> LcdcOf(e.val).enable)
  }

  ghost predicate AllKeepOn(events: seq<History.Event>)
  {
    forall i :: 0 <= i < |events| ==> KeepsOn(events[i])
  }

  // The visible lines 0 to |ws| - 1, line y after the writes ws[y].
  ghost function Lines(p: Ppu, ws: seq<seq<History.Event>>): (r: Out)
    requires p.Valid()
    ensures r.p.Valid()
  {
    if ws == [] then Out(p, [])
    else
      var before := Lines(p, ws[..|ws| - 1]);
      var line := Run(History.AfterAll(before.p, ws[|ws| - 1]), LINE_CYCLES);
      Out(line.p, before.o + line.o)
  }

  // The unit as line y is drawn.
  ghost function Drawing(p: Ppu, ws: seq<seq<History.Event>>, y: nat): (q: Ppu)
    requires p.Valid() && y < |ws|
    ensures q.Valid()
  {
    History.AfterAll(Lines(p, ws[..y]).p, ws[y])
  }

  // How many of the lines before y have shown the window.
  ghost function WindowLines(p: Ppu, ws: seq<seq<History.Event>>, y: nat): nat
    requires p.Valid() && y <= |ws|
  {
    if y == 0 then 0
    else
      var r := Drawing(p, ws, y - 1).regs;
      WindowLines(p, ws, y - 1) + if r.lcdc.winOn && y - 1 >= r.wy then 1 else 0
  }

  // No line's window begins left of the screen before an object that is fetched there.
  ghost predicate ClearLines(p: Ppu, ws: seq<seq<History.Event>>)
    requires p.Valid()
  {
    forall y :: 0 <= y < |ws| ==> EdgeClear(Drawing(p, ws, y))
  }

  lemma EventAtLine(q: Ppu, e: History.Event)
    requires LineStart(q) && q.regs.lcdc.enable && KeepsOn(e)
    ensures var r := History.After(q, e);
      LineStart(r) && r.regs.lcdc.enable && r.regs.ly == q.regs.ly && r.winY == q.winY
  {
    hide Pipe.Valid, FetchState.Reset, Written;
    if e.Write? {
      WriteAtLine(q, e.addr, e.val);
    }
  }

  lemma RegsAtLine(r: Regs, addr: Word, val: Byte)
    ensures var s := r.Write(addr, val);
      s.stat.mode == r.stat.mode && s.ly == r.ly && s.lcdc == if addr == LCDC_ADDR then LcdcOf(val) else r.lcdc
  {
    hide LcdcOf;
  }

  lemma WriteAtLine(q: Ppu, addr: Word, val: Byte)
    requires LineStart(q) && q.regs.lcdc.enable && (addr == LCDC_ADDR ==> LcdcOf(val).enable)
    ensures var r := Written(q, addr, val);
      LineStart(r) && r.regs.lcdc.enable && r.regs.ly == q.regs.ly && r.winY == q.winY
  {
    hide Pipe.Valid, FetchState.Reset, Regs.Write, LcdcOf, Regs.OffsetsAgree;
    RegsAtLine(q.regs, addr, val);
  }

  lemma {:induction false} EventsAtLine(q: Ppu, events: seq<History.Event>)
    requires LineStart(q) && q.regs.lcdc.enable && AllKeepOn(events)
    ensures var r := History.AfterAll(q, events);
      LineStart(r) && r.regs.lcdc.enable && r.regs.ly == q.regs.ly && r.winY == q.winY
    decreases |events|
  {
    hide LineStart, History.After, KeepsOn;
    LineStartIs(q);
    if events != [] {
      EventAtLine(q, events[0]);
      EventsAtLine(History.After(q, events[0]), events[1..]);
    }
  }

  // After y lines: at the start of the next, with the window's rows counted, and each row so far shows
  // what its own registers and memories describe.
  ghost predicate Drawn(p: Ppu, ws: seq<seq<History.Event>>, y: nat)
    requires p.Valid() && y <= |ws| && y <= HEIGHT
  {
    var r := Lines(p, ws[..y]);
    && (if y < HEIGHT then LineStart(r.p) else r.p.Mode() == VBlank)
    && r.p.regs.ly == y && r.p.regs.lcdc.enable && r.p.winY == WindowLines(p, ws, y) % 0x100
    && RowsShown(p, ws, y, r.o)
  }

  ghost predicate RowsShown(p: Ppu, ws: seq<seq<History.Event>>, y: nat, o: seq<Output>)
    requires p.Valid() && y <= |ws|
  {
    && (forall row: Row, c: Col :: Writes(o, row, c) == if row < y then 1 else 0)
    && (forall row: Row, c: Col, before: Byte ::
          Cell(o, row, c, before) == if row < y then RowShown(Drawing(p, ws, row), c) else before)
  }

  lemma RowsGrow(p: Ppu, ws: seq<seq<History.Event>>, y: nat, before: seq<Output>, line: seq<Output>)
    requires p.Valid() && y < |ws| && RowsShown(p, ws, y, before)
    requires var q := Drawing(p, ws, y);
      LineStart(q) && q.regs.ly == y && line == Columns(StartTransfer(q), 0) + LineTail(q)
    ensures RowsShown(p, ws, y + 1, before + line)
  {
    hide LineStart, RowShown, Writes, Cell, LineTail, Columns, StartTransfer, Drawing;
    var q := Drawing(p, ws, y);
    forall row: Row, c: Col
      ensures Writes(before + line, row, c) == if row < y + 1 then 1 else 0
    {
      LinePaints(q, row, c, 0);
      OutputAppend(before, line, row, c, 0, ItVBlank);
    }
    forall row: Row, c: Col, b: Byte
      ensures Cell(before + line, row, c, b) == if row < y + 1 then RowShown(Drawing(p, ws, row), c) else b
    {
      LinePaints(q, row, c, Cell(before, row, c, b));
      OutputAppend(before, line, row, c, b, ItVBlank);
    }
  }

  lemma LinesStep(p: Ppu, ws: seq<seq<History.Event>>, y: nat)
    requires p.Valid() && y < |ws|
    ensures var before, line := Lines(p, ws[..y]), Run(Drawing(p, ws, y), LINE_CYCLES);
      Lines(p, ws[..y + 1]) == Out(line.p, before.o + line.o)
  {
    assert ws[..y + 1][..y] == ws[..y] && ws[..y + 1][y] == ws[y];
  }

  lemma LeavesNext(q: Ppu, r: Ppu)
    requires LineStart(q) && q.regs.lcdc.enable && LineLeaves(q, r)
    ensures if r.regs.ly < HEIGHT then LineStart(r) else r.Mode() == VBlank
    ensures r.regs.ly == q.regs.ly + 1 && r.regs.lcdc.enable && r.winY == WindowRowAfter(q)
  {
  }

  lemma {:induction false} LinesDrawn(p: Ppu, ws: seq<seq<History.Event>>, y: nat)
    requires FrameStart(p) && p.regs.lcdc.enable && y <= |ws| <= HEIGHT
    requires (forall i :: 0 <= i < |ws| ==> AllKeepOn(ws[i])) && ClearLines(p, ws)
    ensures Drawn(p, ws, y)
  {
    hide Run, LineStart, AllKeepOn, EdgeClear, Drawn, LineTail, Columns, StartTransfer, LineLeaves;
    StartIsValid(p);
    if y == 0 {
      NothingDrawn(p, ws);
    } else {
      LinesDrawn(p, ws, y - 1);
      NextLineDrawn(p, ws, y - 1);
    }
  }

  lemma NothingDrawn(p: Ppu, ws: seq<seq<History.Event>>)
    requires FrameStart(p) && p.regs.lcdc.enable
    ensures Drawn(p, ws, 0)
  {
    hide FetchState.Reset, Pipe.Valid;
    assert ws[..0] == [];
  }

  // The state in which line y is drawn.
  lemma DrawingStarts(p: Ppu, ws: seq<seq<History.Event>>, y: nat)
    requires p.Valid() && y < |ws| <= HEIGHT && Drawn(p, ws, y) && AllKeepOn(ws[y])
    ensures var q := Drawing(p, ws, y);
      LineStart(q) && q.regs.lcdc.enable && q.regs.ly == y && q.winY == WindowLines(p, ws, y) % 0x100
  {
    hide LineStart, AllKeepOn, RowsShown, History.AfterAll, Lines, WindowLines;
    EventsAtLine(Lines(p, ws[..y]).p, ws[y]);
  }

  lemma CountedRow(p: Ppu, ws: seq<seq<History.Event>>, y: nat)
    requires p.Valid() && y < |ws| && Drawing(p, ws, y).regs.ly == y
    requires Drawing(p, ws, y).winY == WindowLines(p, ws, y) % 0x100
    ensures WindowRowAfter(Drawing(p, ws, y)) == WindowLines(p, ws, y + 1) % 0x100
  {
    hide Drawing;
  }

  lemma RowsSoFar(p: Ppu, ws: seq<seq<History.Event>>, y: nat)
    requires p.Valid() && y <= |ws| && y <= HEIGHT && Drawn(p, ws, y)
    ensures RowsShown(p, ws, y, Lines(p, ws[..y]).o)
  {
    hide Lines, RowsShown, LineStart;
  }

  lemma NextLineDrawn(p: Ppu, ws: seq<seq<History.Event>>, y: nat)
    requires p.Valid() && y < |ws| <= HEIGHT && Drawn(p, ws, y)
    requires AllKeepOn(ws[y]) && ClearLines(p, ws)
    ensures Drawn(p, ws, y + 1)
  {
    hide Run, LineStart, AllKeepOn, EdgeClear, LineTail, Columns, StartTransfer, LineLeaves, RowsShown, Drawing,
         Lines, WindowLines, WindowRowAfter;
    var q := Drawing(p, ws, y);
    DrawingStarts(p, ws, y);
    RowsSoFar(p, ws, y);
    LineRun(q);
    LeavesNext(q, Run(q, LINE_CYCLES).p);
    CountedRow(p, ws, y);
    LinesStep(p, ws, y);
    RowsGrow(p, ws, y, Lines(p, ws[..y]).o, Run(q, LINE_CYCLES).o);
  }

  // A frame with writes between its lines: every cell is written once, and row y shows what registers,
  // video memory and object memory describe as line y begins, with the window row counted over the
  // lines that have shown the window.
  lemma FrameOfLines(p: Ppu, ws: seq<seq<History.Event>>)
    requires FrameStart(p) && p.regs.lcdc.enable && |ws| == HEIGHT
    requires (forall i :: 0 <= i < |ws| ==> AllKeepOn(ws[i])) && ClearLines(p, ws)
    ensures p.Valid()
    ensures var o := Lines(p, ws).o;
      && (forall y: Row, c: Col :: Writes(o, y, c) == 1)
      && (forall y: Row, c: Col, before: Byte :: Cell(o, y, c, before) == RowShown(Drawing(p, ws, y), c))
    ensures forall y: Row, c: Col :: LineBytesShow(Drawing(p, ws, y), c, RowShown(Drawing(p, ws, y), c))
    ensures forall y: Row :: Drawing(p, ws, y).winY == WindowLines(p, ws, y) && Drawing(p, ws, y).regs.ly == y
  {
    hide Drawn, Drawing, Lines, AllKeepOn, RowShown, Writes, Cell, ClearLines, FrameStart, WindowLines, LineBytesShow;
    StartIsValid(p);
    LinesDrawn(p, ws, HEIGHT);
    AllRows(p, ws);
    forall y: Row, c: Col
      ensures LineBytesShow(Drawing(p, ws, y), c, RowShown(Drawing(p, ws, y), c))
    {
      RowIsFromBytes(Drawing(p, ws, y), c);
    }
    forall y: Row
      ensures Drawing(p, ws, y).winY == WindowLines(p, ws, y) && Drawing(p, ws, y).regs.ly == y
    {
      LinesDrawn(p, ws, y);
      RowNumbers(p, ws, y);
    }
  }

  lemma AllRows(p: Ppu, ws: seq<seq<History.Event>>)
    requires p.Valid() && |ws| == HEIGHT && Drawn(p, ws, HEIGHT)
    ensures var o := Lines(p, ws).o;
      && (forall y: Row, c: Col :: Writes(o, y, c) == 1)
      && (forall y: Row, c: Col, before: Byte :: Cell(o, y, c, before) == RowShown(Drawing(p, ws, y), c))
  {
    hide Drawing, Lines, RowShown, Writes, Cell, WindowLines;
    assert ws[..HEIGHT] == ws;
  }

  lemma RowNumbers(p: Ppu, ws: seq<seq<History.Event>>, y: Row)
    requires p.Valid() && y < |ws| && Drawn(p, ws, y) && AllKeepOn(ws[y])
    ensures Drawing(p, ws, y).winY == WindowLines(p, ws, y) && Drawing(p, ws, y).regs.ly == y
  {
    hide LineStart, AllKeepOn, RowShown, Writes, Cell, Lines, History.AfterAll;
    EventsAtLine(Lines(p, ws[..y]).p, ws[y]);
    FewWindowLines(p, ws, y);
  }

  lemma {:induction false} FewWindowLines(p: Ppu, ws: seq<seq<History.Event>>, y: nat)
    requires p.Valid() && y <= |ws|
    ensures WindowLines(p, ws, y) <= y
  {
    hide Drawing;
    if y > 0 {
      FewWindowLines(p, ws, y - 1);
    }
  }
}
