/** A whole frame: 154 lines of 456 dots draw the picture once and come back to the start. */
module Frame {
  import opened Bytes
  import opened Pixels
  import opened Registers
  import opened PixelFifo
  import opened Oam
  import opened Fetch
  import opened Interrupts
  import opened Outputs
  import opened PpuCore
  import opened Mode3
  import opened Batching
  import opened Conservation
  import opened Picture
  import opened Blueprint
  import opened Likeness
  import opened Scanline
  import opened Objects
  import opened Line

  // ---- One line

  // The line's own objects leave a window from beyond the left edge alone.
  ghost predicate EdgeClear(p: Ppu)
    requires p.Valid()
  {
    LeftClear(p.regs, LineObjs(p.oam, p.regs.ly, p.regs.lcdc.tallObjs))
  }

  lemma StartIsInStep(p: Ppu)
    requires LineStart(p)
    ensures Inv(StartTransfer(p)) && BgSide(StartTransfer(p))
  {
    hide LineObjs;
  }

  lemma StartHasObjects(p: Ppu)
    requires LineStart(p)
    ensures ObjSide(StartTransfer(p)) && Objs(StartTransfer(p)) == LineObjs(p.oam, p.regs.ly, p.regs.lcdc.tallObjs)
  {
    hide TopObject, EntryAt, Covers;
    var objs := LineObjs(p.oam, p.regs.ly, p.regs.lcdc.tallObjs);
    LineObjsCorrect(p.oam, p.regs.ly, p.regs.lcdc.tallObjs);
    var q := StartTransfer(p);
    assert q.found[..q.numObjs] == objs;
    assert forall a, b :: 0 <= a < b < |objs| ==> Before(objs[a], objs[b]);
  }

  // Mode 2: eighty dots, after which the line is ready to be drawn.
  lemma SearchRun(p: Ppu)
    requires LineStart(p) && EdgeClear(p)
    ensures var q := StartTransfer(p).(lineCycles := OAM_CYCLES);
      && Run(p, OAM_CYCLES) == Out(q, [])
      && LineInv(q) && Healthy(q) && q.enabled
  {
    hide Run, LineObjs, BgSide, ObjSide, Linked, Potential, StartTransfer;
    SearchIsRun(p, OAM_CYCLES);
    StartIsInStep(p);
    StartHasObjects(p);
    TransferStartsHealthy(p);
    var q := StartTransfer(p);
    TransferStart(p);
    assert LeftClear(q.regs, Objs(q));
    LineIgnoresClock(q, OAM_CYCLES);
    PotentialIgnoresClock(q, OAM_CYCLES);
  }

  lemma LineStartIs(p: Ppu)
    requires LineStart(p)
    ensures p.Valid() && p.Mode() == OamSearch && p.regs.ly < HEIGHT
  {
  }

  // What follows the search: transfer, then blanking to the end of the line.
  lemma DrawAndBlank(p: Ppu, q: Ppu)
    requires LineStart(p) && q == StartTransfer(p).(lineCycles := OAM_CYCLES) && LineInv(q) && Healthy(q) && q.enabled
    ensures q.Valid()
    ensures var r := Run(q, LINE_CYCLES - OAM_CYCLES);
      LineLeaves(p, r.p) && r.o == Columns(StartTransfer(p), 0) + LineTail(p)
  {
    hide Run, LineObjs, LineInv, LineEnded, Inv, Potential, StartTransfer, EndOfLine, Columns, ModeRequests,
         LineTail, LineLeaves, Ppu.Valid, FromX, BgReachable, LineStart, DotsLeft;
    LineStartIs(p);
    StartBegins(p);
    TransferRun(q);
    var n := DotsLeft(q);
    EndedIgnoresClock(p, q, Run(q, n).p);
    BlankRun(p, Run(q, n).p);
    RunAppend(q, n, LINE_CYCLES - OAM_CYCLES - n);
    OutputRegroup(Columns(StartTransfer(p), 0), ModeRequests(true, p.regs.stat, HBlank),
                  Run(Run(q, n).p, LINE_CYCLES - OAM_CYCLES - n).o);
  }

  // 456 dots from the start of a line draw the line, each column once, and lead to the next line.
  lemma LineRun(p: Ppu)
    requires LineStart(p) && EdgeClear(p)
    ensures LineLeaves(p, Run(p, LINE_CYCLES).p)
    ensures Run(p, LINE_CYCLES).o == Columns(StartTransfer(p), 0) + LineTail(p)
  {
    hide Run, LineObjs, LineInv, Healthy, StartTransfer, Columns, LineTail, LineLeaves;
    var q := StartTransfer(p).(lineCycles := OAM_CYCLES);
    SearchRun(p);
    DrawAndBlank(p, q);
    RunAppend(p, OAM_CYCLES, LINE_CYCLES - OAM_CYCLES);
    var rest := Columns(StartTransfer(p), 0) + LineTail(p);
    assert [] + rest == rest;
  }

  lemma EndedIgnoresClock(p: Ppu, q: Ppu, e: Ppu)
    requires LineStart(p) && q == StartTransfer(p).(lineCycles := OAM_CYCLES) && LineEnded(q, e)
    ensures LineEnded(StartTransfer(p), e) && e.enabled
    ensures q.Valid() && Columns(StartTransfer(p), 0) == Columns(q, FromX(q))
    ensures ModeRequests(q.enabled, q.regs.stat, HBlank) == ModeRequests(true, p.regs.stat, HBlank)
  {
    hide LineObjs, LevelAt;
    TransferStart(p);
    SameColumns(StartTransfer(p), q, 0);
  }

  // ---- The picture does not depend on the status register

  ghost predicate SameSight(s: Scene, s': Scene)
  {
    s.vram == s'.vram && s'.r == s.r.(stat := s'.r.stat)
  }

  lemma ObjectIgnoresStat(e: OamEntry, s: Scene, s': Scene, c: int)
    requires s.Valid() && s'.Valid() && SameSight(s, s')
    ensures ObjectAt(e, s, c) == ObjectAt(e, s', c)
  {
    hide DecodedLine, ObjAddr;
    assert ObjectRow(e, s) == ObjectRow(e, s');
  }

  lemma {:induction false} TopIgnoresStat(objs: seq<OamEntry>, s: Scene, s': Scene, c: int)
    requires s.Valid() && s'.Valid() && SameSight(s, s')
    ensures TopObject(objs, s, c) == TopObject(objs, s', c)
  {
    if objs != [] {
      TopIgnoresStat(objs[..|objs| - 1], s, s', c);
      ObjectIgnoresStat(objs[|objs| - 1], s, s', c);
    }
  }

  lemma LevelIgnoresStat(s: Scene, s': Scene, winY: Byte, left: int, objs: seq<OamEntry>, c: Col)
    requires s.Valid() && s'.Valid() && SameSight(s, s') && LeftFits(s.r, left)
    ensures LevelAt(s, winY, left, objs, c) == LevelAt(s', winY, left, objs, c)
  {
    hide Level, ToPalette, PlaneValue, TopObject;
    TopIgnoresStat(objs, s, s', c);
    assert Under(s, winY, left, c) == Under(s', winY, left, c) by {
      MapIgnoresStat(s, s');
    }
  }

  lemma MapIgnoresStat(s: Scene, s': Scene)
    requires s.Valid() && s'.Valid() && SameSight(s, s')
    ensures forall base, mx: nat, my: nat, kind ::
      mx < 256 && my < 256 && (base == OFFSET_9800 || base == OFFSET_9C00) ==>
      MapPixel(base, mx, my, kind, s) == MapPixel(base, mx, my, kind, s')
  {
    hide PlaneValue;
  }

  // ---- The frame

  // The window's row counter on line y of a frame.
  function WinRow(r: Regs, y: nat): Byte
    requires y <= HEIGHT
  {
    if r.lcdc.winOn && y >= r.wy then y - r.wy else 0
  }

  // What the program shows at row y, column c of a frame: the picture, with the window where the
  // program lets it begin.
  ghost function ShownAt(p: Ppu, y: Row, c: Col): Byte
    requires p.Valid()
  {
    LevelAt(Fetch.Scene(p.regs.(ly := y), p.vram, p.found), WinRow(p.regs, y), ShownLeft(p.regs),
            LineObjs(p.oam, y, p.regs.lcdc.tallObjs), c)
  }

  // Wherever the window shows, it does not start beyond the left edge, or no object in between
  // delays it.
  ghost predicate EdgesClear(p: Ppu)
    requires p.Valid()
  {
    forall y: Row :: LeftClear(p.regs.(ly := y), LineObjs(p.oam, y, p.regs.lcdc.tallObjs))
  }

  // The start of line y of the frame that began in p, with the window's row counted along.
  ghost predicate AtLine(p: Ppu, y: nat, p': Ppu)
    requires y <= LAST_LINE
  {
    && BegunLine(p, y, p') && p'.pipe.f == p'.pipe.f.Reset() && p'.pipe.q == EMPTY
    && (y <= HEIGHT ==> p'.winY == WinRow(p.regs, y))
  }

  // Rows 0 to y - 1 have been drawn, once and with the picture, and nothing else has.
  ghost predicate Painted(p: Ppu, y: nat, o: seq<Output>)
    requires p.Valid()
  {
    && (forall row: Row, c: Col :: Writes(o, row, c) == if row < y then 1 else 0)
    && (forall row: Row, c: Col, before: Byte ::
          Cell(o, row, c, before) == if row < y then ShownAt(p, row, c) else before)
  }

  // What line q.regs.ly shows when it is drawn from q.
  ghost function RowShown(q: Ppu, c: Col): Byte
    requires q.Valid()
  {
    LevelAt(q.Scene(), q.winY, ShownLeft(q.regs), LineObjs(q.oam, q.regs.ly, q.regs.lcdc.tallObjs), c)
  }

  lemma ColumnIsShown(q: Ppu, c: Col)
    requires LineStart(q)
    ensures q.regs.ly < HEIGHT && Column(StartTransfer(q), c) == Draw(q.regs.ly, c, RowShown(q, c))
  {
    hide LevelAt, LineObjs, ObjSide;
    var t := StartTransfer(q);
    TransferStart(q);
    StartHasObjects(q);
    LevelIgnoresStat(q.Scene(), t.Scene(), q.winY, ShownLeft(q.regs), Objs(t), c);
  }

  // The output of a line, cell by cell.
  lemma LinePaints(q: Ppu, row: int, c: Col, before: Byte)
    requires LineStart(q)
    ensures q.regs.ly < HEIGHT
    ensures var o := Columns(StartTransfer(q), 0) + LineTail(q);
      && Writes(o, row, c) == (if row == q.regs.ly then 1 else 0)
      && Cell(o, row, c, before) == (if row == q.regs.ly then RowShown(q, c) else before)
  {
    hide LevelAt, LineObjs, StartTransfer, LineTail, RowShown, Writes, Cell, Requests;
    var cols, tail := Columns(StartTransfer(q), 0), LineTail(q);
    TransferStart(q);
    assert DrawsRow(cols, q.regs.ly) by {
      forall i | 0 <= i < |cols|
        ensures cols[i] == Draw(q.regs.ly, i, RowShown(q, i))
      {
        ColumnIsShown(q, i);
      }
    }
    RowCells(cols, q.regs.ly, row, c, before, ItVBlank);
    ColumnIsShown(q, c);
    TailRequests(q, row, c, Cell(cols, row, c, before));
    OutputAppend(cols, tail, row, c, before, ItVBlank);
  }

  lemma RowIsPicture(p: Ppu, y: Row, p': Ppu, c: Col)
    requires p.Valid() && AtLine(p, y, p')
    ensures RowShown(p', c) == ShownAt(p, y, c)
  {
    hide LevelAt, LineObjs;
    LevelIgnoresStat(Fetch.Scene(p.regs.(ly := y), p.vram, p.found), p'.Scene(), p'.winY, ShownLeft(p.regs),
                     LineObjs(p.oam, y, p.regs.lcdc.tallObjs), c);
  }

  lemma ClearIgnoresStat(p: Ppu, y: Row, p': Ppu)
    requires p.Valid() && EdgesClear(p) && AtLine(p, y, p')
    ensures EdgeClear(p')
  {
    hide LineObjs;
    assert LeftClear(p.regs.(ly := y), LineObjs(p.oam, y, p.regs.lcdc.tallObjs));
  }

  // Row y is drawn, once and with the picture, and no other row is touched.
  ghost predicate RowAdded(p: Ppu, y: Row, o: seq<Output>)
    requires p.Valid()
  {
    && (forall row: Row, c: Col :: Writes(o, row, c) == if row == y then 1 else 0)
    && (forall row: Row, c: Col, before: Byte ::
          Cell(o, row, c, before) == if row == y then ShownAt(p, y, c) else before)
  }

  // A visible line of the frame, and what it adds to the output.
  lemma PaintedLine(p: Ppu, y: Row, p': Ppu)
    requires FrameStart(p) && EdgesClear(p) && AtLine(p, y, p')
    ensures AtLine(p, y + 1, Run(p', LINE_CYCLES).p) && RowAdded(p, y, Run(p', LINE_CYCLES).o)
  {
    hide Run, Columns, LineTail, StartTransfer, ShownAt, RowShown, Writes, Cell, EdgesClear, EdgeClear;
    ClearIgnoresStat(p, y, p');
    LineRun(p');
    forall row: Row, c: Col
      ensures Writes(Run(p', LINE_CYCLES).o, row, c) == if row == y then 1 else 0
    {
      LinePaints(p', row, c, 0);
    }
    forall row: Row, c: Col, before: Byte
      ensures Cell(Run(p', LINE_CYCLES).o, row, c, before) == if row == y then ShownAt(p, y, c) else before
    {
      LinePaints(p', row, c, before);
      RowIsPicture(p, y, p', c);
    }
  }

  // One more row on top of those already painted.
  lemma RowOnTop(p: Ppu, y: Row, before: seq<Output>, o: seq<Output>)
    requires p.Valid() && Painted(p, y, before) && RowAdded(p, y, o)
    ensures Painted(p, y + 1, before + o)
  {
    hide Writes, Cell, ShownAt;
    forall row: Row, c: Col
      ensures Writes(before + o, row, c) == if row < y + 1 then 1 else 0
    {
      OutputAppend(before, o, row, c, 0, ItVBlank);
    }
    forall row: Row, c: Col, b: Byte
      ensures Cell(before + o, row, c, b) == if row < y + 1 then ShownAt(p, row, c) else b
    {
      OutputAppend(before, o, row, c, b, ItVBlank);
    }
  }

  lemma RequestsOnTop(p: Ppu, y: nat, before: seq<Output>, o: seq<Output>)
    requires p.Valid() && Painted(p, y, before) && OnlyRequests(o) && y >= HEIGHT
    ensures Painted(p, y + 1, before + o)
  {
    hide Writes, Cell, ShownAt;
    forall row: Row, c: Col
      ensures Writes(before + o, row, c) == if row < y + 1 then 1 else 0
    {
      OutputAppend(before, o, row, c, 0, ItVBlank);
      RequestsDrawNothing(o, row, c, 0);
    }
    forall row: Row, c: Col, b: Byte
      ensures Cell(before + o, row, c, b) == if row < y + 1 then ShownAt(p, row, c) else b
    {
      OutputAppend(before, o, row, c, b, ItVBlank);
      RequestsDrawNothing(o, row, c, Cell(before, row, c, b));
    }
  }

  lemma NothingPainted(p: Ppu)
    requires p.Valid()
    ensures Painted(p, 0, [])
  {
  }

  // y lines into the frame, the first y rows are painted and the rest untouched.
  lemma {:induction false} FrameLines(p: Ppu, y: nat)
    requires FrameStart(p) && EdgesClear(p) && y <= LAST_LINE
    ensures var r := Run(p, LINE_CYCLES * y); AtLine(p, y, r.p) && Painted(p, y, r.o)
  {
    hide Run, Painted, RowAdded, OnlyRequests, EdgesClear, Requests;
    if y == 0 {
      EmptyRun(p);
      NothingPainted(p);
    } else {
      FrameLines(p, y - 1);
      var r := Run(p, LINE_CYCLES * (y - 1));
      var l := Run(r.p, LINE_CYCLES);
      RunAppend(p, LINE_CYCLES * (y - 1), LINE_CYCLES);
      if y - 1 < HEIGHT {
        PaintedLine(p, y - 1, r.p);
        RowOnTop(p, y - 1, r.o, l.o);
      } else {
        BlankLine(p, y - 1, r.p);
        RequestsOnTop(p, y - 1, r.o, l.o);
      }
    }
  }

  // With the registers and memories held over the frame, each cell is drawn with what the picture
  // shows there.
  lemma WholeFrame(p: Ppu)
    requires FrameStart(p) && EdgesClear(p)
    ensures var r := Run(p, FRAME_CYCLES);
      NextFrame(p, r.p) && Painted(p, HEIGHT, r.o) && Requests(r.o, ItVBlank) == 1
  {
    hide Run, Requests, OnlyRequests, Writes, Cell, ShownAt, NextFrame, FrameStart, AtLine, EdgesClear;
    StartIsValid(p);
    FrameConserves(p);
    FrameLines(p, LAST_LINE);
    var r := Run(p, LINE_CYCLES * LAST_LINE);
    LastIsBlank(p, r.p);
    BlankLine(p, LAST_LINE, r.p);
    RequestsOnTop(p, LAST_LINE, r.o, Run(r.p, LINE_CYCLES).o);
    RunAppend(p, LINE_CYCLES * LAST_LINE, LINE_CYCLES);
  }

  lemma LastIsBlank(p: Ppu, p': Ppu)
    requires FrameStart(p) && AtLine(p, LAST_LINE, p')
    ensures BegunLine(p, LAST_LINE, p') && p.regs.ly == 0 && p.Mode() == OamSearch
  {
  }

  lemma StartIsValid(p: Ppu)
    requires FrameStart(p)
    ensures p.Valid() && Healthy(p) && FrameBegins(p)
  {
  }

  // ---- The same by batches of any sizes

  function Sum(sizes: seq<nat>): nat
  {
    if sizes == [] then 0 else sizes[0] + Sum(sizes[1..])
  }

  function Batches(p: Ppu, sizes: seq<nat>): (r: Out)
    requires p.Valid()
    ensures r.p.Valid()
    decreases |sizes|
  {
    if sizes == [] then Out(p, [])
    else
      var b := Batch(p, sizes[0]);
      var rest := Batches(b.p, sizes[1..]);
      Out(rest.p, b.o + rest.o)
  }

  lemma {:induction false} BatchesAreRun(p: Ppu, sizes: seq<nat>)
    requires Healthy(p)
    ensures Batches(p, sizes) == Run(p, Sum(sizes))
    decreases |sizes|
  {
    hide Run, Batch, Linked, Potential;
    if sizes == [] {
      EmptyRun(p);
    } else {
      BatchIsRun(p, sizes[0]);
      RunHealthy(p, sizes[0]);
      BatchesAreRun(Run(p, sizes[0]).p, sizes[1..]);
      RunAppend(p, sizes[0], Sum(sizes[1..]));
    }
  }

  // ---- Against the picture with the window where the register puts it

  ghost function PictureAt(p: Ppu, y: Row, c: Col): Byte
    requires p.Valid()
  {
    LevelAt(Fetch.Scene(p.regs.(ly := y), p.vram, p.found), WinRow(p.regs, y), WindowLeft(p.regs),
            LineObjs(p.oam, y, p.regs.lcdc.tallObjs), c)
  }

  // `level` is what the bytes of the memories and registers describe at row y, column c: the window's rows
  // counted from line WY, its left edge at column WX - 7.
  ghost predicate BytesShow(p: Ppu, y: Row, c: Col, level: Byte)
    requires p.Valid()
  {
    BytesShowFrom(p, y, c, LookOf(p.regs).wx - 7, level)
  }

  // The same with another left edge for the window.
  ghost predicate BytesShowFrom(p: Ppu, y: Row, c: Col, left: int, level: Byte)
    requires p.Valid()
  {
    var l := LookOf(p.regs);
    && (WindowCovers(l, y, c) ==> 0 <= c - left < 256)
    && Describes(level, l, p.vram, p.oam, y, c, Max(0, y - l.wy), left, true)
  }

  lemma SameLook(r: Regs, y: Row)
    ensures LookOf(r.(ly := y)) == LookOf(r)
  {
    hide LcdcByte, StatByte;
  }

  lemma LevelIsFromBytes(p: Ppu, y: Row, c: Col, left: int)
    requires p.Valid() && LeftFits(p.regs, left)
    ensures BytesShowFrom(p, y, c, left,
      LevelAt(Fetch.Scene(p.regs.(ly := y), p.vram, p.found), WinRow(p.regs, y), left,
              LineObjs(p.oam, y, p.regs.lcdc.tallObjs), c))
  {
    hide LevelAt, LineObjs, Describes, LookOf;
    var s := Fetch.Scene(p.regs.(ly := y), p.vram, p.found);
    SameLook(p.regs, y);
    LevelIsDescribed(s, p.oam, WinRow(p.regs, y), left, c);
    RowOnlyInWindow(LevelAt(s, WinRow(p.regs, y), left, LineObjs(p.oam, y, p.regs.lcdc.tallObjs), c), p, y, c, left);
  }

  // The window's row matters only where the window covers the column.
  lemma RowOnlyInWindow(level: Byte, p: Ppu, y: Row, c: Col, left: int)
    requires p.Valid() && (WindowCovers(LookOf(p.regs), y, c) ==> 0 <= c - left < 256)
    requires Describes(level, LookOf(p.regs), p.vram, p.oam, y, c, WinRow(p.regs, y), left, true)
    ensures Describes(level, LookOf(p.regs), p.vram, p.oam, y, c, Max(0, y - LookOf(p.regs).wy), left, true)
  {
    hide LookOf, MapColour, Top, ShadeOf, ObjectColour, HasLine;
    var l := LookOf(p.regs);
    LookBits(p.regs);
    if WindowCovers(l, y, c) {
      assert WinRow(p.regs, y) == Max(0, y - l.wy) by { CoveredRow(p.regs, y, c); }
    }
    assert LayerColour(l, p.vram, y, c, WinRow(p.regs, y), left)
        == LayerColour(l, p.vram, y, c, Max(0, y - l.wy), left);
    assert LayerShade(l, p.vram, y, c, WinRow(p.regs, y), left)
        == LayerShade(l, p.vram, y, c, Max(0, y - l.wy), left);
    SameTopShades(l, p.vram, p.oam, y, c, WinRow(p.regs, y), Max(0, y - l.wy), left);
  }

  lemma CoveredRow(r: Regs, y: Row, c: Col)
    requires WindowCovers(LookOf(r), y, c)
    ensures WinRow(r, y) == Max(0, y - LookOf(r).wy)
  {
    hide LookOf;
    LookBits(r);
  }

  lemma SameTopShades(l: Look, vram: seq<Byte>, oam: seq<Byte>, y: nat, c: nat, row: Byte, row': Byte, left: int)
    requires Memories(vram, oam) && (WindowCovers(l, y, c) ==> 0 <= c - left < 256)
    requires LayerColour(l, vram, y, c, row, left) == LayerColour(l, vram, y, c, row', left)
    requires LayerShade(l, vram, y, c, row, left) == LayerShade(l, vram, y, c, row', left)
    ensures forall i: nat :: i < 40 && HasLine(l, oam, y, i) ==>
      TopShade(l, vram, oam, y, c, row, left, i, true) == TopShade(l, vram, oam, y, c, row', left, i, true)
  {
    hide LayerColour, LayerShade, ObjectColour, ShadeOf, HasLine;
  }

  lemma PictureIsFromBytes(p: Ppu, y: Row, c: Col)
    requires p.Valid()
    ensures BytesShow(p, y, c, PictureAt(p, y, c))
  {
    hide LevelAt, LineObjs, Describes, LookOf;
    LookBits(p.regs);
    LevelIsFromBytes(p, y, c, WindowLeft(p.regs));
  }

  // Where the window shows at all, it starts on screen.
  predicate WindowFits(r: Regs)
  {
    r.lcdc.winOn && r.wy < HEIGHT ==> r.wx >= 7
  }

  lemma ShownIsFromBytes(p: Ppu, y: Row, c: Col)
    requires p.Valid()
    ensures BytesShowFrom(p, y, c, ShownLeft(p.regs), ShownAt(p, y, c))
  {
    hide LevelAt, LineObjs, Describes, LookOf;
    LevelIsFromBytes(p, y, c, ShownLeft(p.regs));
  }

  // What a single line shows, from the bytes as it is drawn.
  ghost predicate LineBytesShow(q: Ppu, c: Col, level: Byte)
    requires q.Valid()
  {
    var l, left := LookOf(q.regs), ShownLeft(q.regs);
    && (WindowCovers(l, q.regs.ly, c) ==> 0 <= c - left < 256)
    && Describes(level, l, q.vram, q.oam, q.regs.ly, c, q.winY, left, true)
  }

  lemma RowIsFromBytes(q: Ppu, c: Col)
    requires q.Valid()
    ensures LineBytesShow(q, c, RowShown(q, c))
  {
    hide LevelAt, LineObjs, Describes, LookOf;
    LevelIsDescribed(q.Scene(), q.oam, q.winY, ShownLeft(q.regs), c);
  }

  // However the processor slices time, a frame's worth of cycles shows the picture, with the window's left
  // edge where the program lets it begin.
  lemma FrameByBatches(p: Ppu, sizes: seq<nat>)
    requires FrameStart(p) && EdgesClear(p) && Sum(sizes) == FRAME_CYCLES
    ensures p.Valid()
    ensures var r := Batches(p, sizes);
      && NextFrame(p, r.p) && Requests(r.o, ItVBlank) == 1
      && (forall y: Row, c: Col :: Writes(r.o, y, c) == 1)
      && (forall y: Row, c: Col, before: Byte :: Cell(r.o, y, c, before) == ShownAt(p, y, c))
    ensures forall y: Row, c: Col :: BytesShowFrom(p, y, c, ShownLeft(p.regs), ShownAt(p, y, c))
  {
    hide Run, Batches, Requests, Writes, Cell, ShownAt, NextFrame, FrameStart, Healthy, EdgesClear, BytesShowFrom;
    StartIsValid(p);
    BatchesAreRun(p, sizes);
    WholeFrame(p);
    forall y: Row, c: Col
      ensures BytesShowFrom(p, y, c, ShownLeft(p.regs), ShownAt(p, y, c))
    {
      ShownIsFromBytes(p, y, c);
    }
  }

  lemma ShownIsPicture(p: Ppu, y: Row, c: Col)
    requires p.Valid() && WindowFits(p.regs)
    ensures ShownAt(p, y, c) == PictureAt(p, y, c)
  {
    hide LineObjs, TopObject, Mixed;
    ShownLeftExact(p.regs);
    var s := Fetch.Scene(p.regs.(ly := y), p.vram, p.found);
    assert Under(s, WinRow(p.regs, y), ShownLeft(p.regs), c) == Under(s, WinRow(p.regs, y), WindowLeft(p.regs), c);
  }

  lemma FitsIsClear(p: Ppu)
    requires p.Valid() && WindowFits(p.regs)
    ensures EdgesClear(p)
  {
    hide LineObjs;
  }

  // The main result: with the window on screen, a frame's worth of cycles in batches of any
  // sizes shows, in every cell and written once, exactly the picture.
  lemma FrameShowsPicture(p: Ppu, sizes: seq<nat>)
    requires FrameStart(p) && WindowFits(p.regs) && Sum(sizes) == FRAME_CYCLES
    ensures p.Valid()
    ensures var r := Batches(p, sizes);
      && NextFrame(p, r.p) && Requests(r.o, ItVBlank) == 1
      && (forall y: Row, c: Col :: Writes(r.o, y, c) == 1)
      && (forall y: Row, c: Col, before: Byte :: Cell(r.o, y, c, before) == PictureAt(p, y, c))
    ensures forall y: Row, c: Col :: BytesShow(p, y, c, PictureAt(p, y, c))
  {
    hide Batches, Requests, Writes, Cell, PictureAt, ShownAt, NextFrame, FrameStart, EdgesClear, WindowFits, BytesShow;
    StartIsValid(p);
    FitsIsClear(p);
    FrameByBatches(p, sizes);
    forall y: Row, c: Col
      ensures ShownAt(p, y, c) == PictureAt(p, y, c) && BytesShow(p, y, c, PictureAt(p, y, c))
    {
      ShownIsPicture(p, y, c);
      PictureIsFromBytes(p, y, c);
    }
  }
}
