/** Pixel transfer draws, column by column, exactly the line that the picture describes. */
module Scanline {
  import opened Bytes
  import opened Pixels
  import opened Registers
  import opened PixelFifo
  import opened Fetch
  import opened Outputs
  import opened PpuCore
  import opened Mode3
  import opened Picture

  // ---- The stream of background or window pixels, as the fetcher produces it

  // Tile number `t` of the stream.
  ghost function StreamTile(mode: FetchMode, winY: Byte, t: nat, s: Scene): Byte
    requires s.Valid()
  {
    s.vram[MapAddr(mode, winY, t, s.r)]
  }

  ghost function StreamData(mode: FetchMode, winY: Byte, t: nat, plane: nat, s: Scene): Byte
    requires s.Valid() && plane < 2
  {
    s.vram[TileAddr(StreamTile(mode, winY, t, s), FetchRow(mode, winY, s.r), plane, s.r)]
  }

  ghost function StreamLine(mode: FetchMode, winY: Byte, t: nat, s: Scene): (line: TileLine)
    requires s.Valid()
    ensures line.Valid()
  {
    DecodedLine(StreamData(mode, winY, t, 0, s), StreamData(mode, winY, t, 1, s), LineKind(mode), false, false)
  }

  ghost function StreamAt(mode: FetchMode, winY: Byte, n: nat, s: Scene): Pixel
    requires s.Valid()
  {
    StreamLine(mode, winY, n / 8, s).Get(n % 8)
  }

  lemma MapColumn(w: nat)
    ensures w % 256 / 8 == w / 8 % 32 && w % 256 % 8 == w % 8
  {
    var u, r := w / 256, w % 256;
    assert w / 8 == 32 * u + r / 8 && 0 <= r / 8 < 32;
  }

  lemma ScrolledColumn(scx: Byte, c: nat)
    ensures var n := c + scx % 8;
      (c + scx) % 256 / 8 == (n / 8 + scx / 8) % 32 && (c + scx) % 256 % 8 == n % 8
  {
    var n := c + scx % 8;
    assert c + scx == 8 * (n / 8 + scx / 8) + n % 8;
    MapColumn(c + scx);
  }

  // Dropping scx % 8 pixels of the tile stream leaves the scrolled background.
  lemma StreamIsBackground(s: Scene, winY: Byte, c: Col)
    requires s.Valid()
    ensures StreamAt(FmBackground, winY, c + s.r.scx % 8, s) == BackgroundAt(s, c)
  {
    hide TileAddr, PlaneValue;
    ScrolledColumn(s.r.scx, c);
  }

  // The window's tile stream, restarted at its first column, is the window.
  lemma StreamIsWindow(s: Scene, winY: Byte, c: Col)
    requires s.Valid() && WindowShown(s.r, c)
    ensures StreamAt(FmWindow, winY, c - ShownLeft(s.r), s) == WindowAt(s, winY, ShownLeft(s.r), c)
  {
    hide TileAddr, PlaneValue;
  }

  // ---- The background machine and its queue keep in step with the stream

  // What has been fetched of tile `t` so far.
  ghost predicate FetchedSoFar(f: FetchState, s: Scene, t: nat)
    requires s.Valid()
  {
    && (READ_HIGH0 <= f.step <= WRITE_LINE1 ==> f.tileNum == StreamTile(f.mode, f.winY, t, s))
    && (READ_LOW0 <= f.step <= READ_LOW1 ==> f.data0 == StreamData(f.mode, f.winY, t, 0, s))
    && (WRITE_LINE0 <= f.step <= WRITE_LINE1 ==> f.line == StreamLine(f.mode, f.winY, t, s))
  }

  // After n pixels of the stream have left, the queue holds the next ones, up to a tile border,
  // and the fetcher is working on the tile beyond them.
  ghost predicate InStep(p: Pipe, s: Scene, n: nat)
    requires s.Valid()
  {
    var f, ahead := p.f, n + |p.q.bg|;
    && ahead % 8 == 0 && n <= 168 && |p.q.bg| <= 8
    && f.tileCnt == ahead / 8 + (if f.step == WRITE_LINE1 then 1 else 0)
    && FetchedSoFar(f, s, ahead / 8)
    && forall k :: 0 <= k < |p.q.bg| ==> p.q.bg[k] == StreamAt(f.mode, f.winY, n + k, s)
  }

  lemma BackgroundInStep(p: Pipe, s: Scene, n: nat)
    requires p.Valid() && s.Valid() && Linked(p) && InStep(p, s, n)
    ensures InStep(BackgroundTicked(p, s), s, n)
  {
    hide MapAddr, TileAddr, FetchRow, DecodedLine;
    BackgroundTick(p, s);
    var p' := BackgroundTicked(p, s);
    if |p'.q.bg| != |p.q.bg| {
      LoadedTile(p, s, n);
    }
  }

  lemma LoadedTile(p: Pipe, s: Scene, n: nat)
    requires p.Valid() && s.Valid() && n % 8 == 0 && p.q.bg == [] && p.q.bgEnabled
    requires p.f.line == StreamLine(p.f.mode, p.f.winY, n / 8, s)
    ensures forall k :: 0 <= k < 8 ==> p.q.LoadBg(p.f.line).bg[k] == StreamAt(p.f.mode, p.f.winY, n + k, s)
  {
    hide StreamLine;
    forall k | 0 <= k < 8
      ensures p.q.LoadBg(p.f.line).bg[k] == StreamAt(p.f.mode, p.f.winY, n + k, s)
    {
      assert (n + k) / 8 == n / 8 && (n + k) % 8 == k;
    }
  }

  lemma ObjectInStep(p: Pipe, s: Scene, n: nat)
    requires p.Valid() && s.Valid() && Linked(p) && p.f.sprite.Some? && InStep(p, s, n)
    ensures InStep(ObjectTicked(p, s), s, n)
  {
    hide StreamAt, StreamTile, StreamData, StreamLine, ObjAddr, ObjRow, DecodedLine, MixedLine;
  }

  // ---- The background side of a line

  // The column at which the first pixel of the current stream belongs.
  ghost function Origin(p: Ppu): int
  {
    if p.pipe.f.mode == FmBackground then -(p.regs.scx % 8) else ShownLeft(p.regs)
  }

  ghost function Passed(p: Ppu): nat
  {
    Max(0, p.x - Origin(p))
  }

  // Ticks the fetcher has had, at least, while the background was still off.
  ghost function TicksSoFar(p: Ppu): int
  {
    p.x + 8 + p.regs.scx % 8 - p.delay
  }

  ghost predicate WindowSide(p: Ppu)
  {
    && (p.pipe.f.mode == FmWindow ==> WindowShown(p.regs, p.x) && p.pipe.f.winY == p.winY)
    && (p.pipe.f.mode == FmBackground && p.regs.lcdc.winOn && p.regs.ly >= p.regs.wy ==> p.x <= p.regs.wx - 7)
  }

  // The background is switched on at its own column.
  ghost predicate SwitchSide(p: Ppu)
  {
    p.pipe.q.bgEnabled <==> p.x >= -(p.regs.scx % 8)
  }

  ghost predicate BgSide(p: Ppu)
    requires p.Valid()
  {
    && InStep(p.pipe, p.Scene(), Passed(p)) && WindowSide(p) && SwitchSide(p)
    && (p.delay > 0 ==> p.pipe.f.mode == FmBackground)
    && (p.pipe.f.mode == FmBackground ==>
         && (!p.pipe.q.bgEnabled ==> p.pipe.f.step >= WRITE_LINE1 || p.pipe.f.step >= TicksSoFar(p))
         && (p.pipe.q.bgEnabled && p.x < 0 && p.pipe.q.bg == [] ==> p.pipe.f.step == WRITE_LINE1))
    && (p.pipe.f.mode == FmWindow && p.x < 0 ==> p.pipe.q.bg == [] && p.pipe.f.step == p.x - WindowLeft(p.regs))
  }

  // The same right after the fetcher's tick, when the pixel for this dot must be there.
  ghost predicate BgFed(p: Ppu)
    requires p.Valid()
  {
    && InStep(p.pipe, p.Scene(), Passed(p)) && WindowSide(p) && SwitchSide(p)
    && (p.x < 0 ==> (p.pipe.q.bg != [] <==> p.x >= Origin(p)))
    && (p.pipe.f.mode == FmBackground && !p.pipe.q.bgEnabled ==>
         p.pipe.f.step >= WRITE_LINE1 || p.pipe.f.step >= TicksSoFar(p) + 1)
    && (p.pipe.f.mode == FmWindow && p.x < 0 && p.pipe.q.bg == [] ==> p.pipe.f.step == p.x + 1 - WindowLeft(p.regs))
  }

  // What a fetcher tick does to the background side, whatever the object machine is doing.
  lemma FetchInStep(p: Ppu, n: nat)
    requires Inv(p) && InStep(p.pipe, p.Scene(), n)
    ensures var p' := FetchTicked(p);
      && InStep(p'.pipe, p'.Scene(), n) && p'.pipe.f.mode == p.pipe.f.mode && p'.pipe.f.winY == p.pipe.f.winY
      && p'.pipe.q.bgEnabled == p.pipe.q.bgEnabled
      && (if p.pipe.q.bg == [] && p.pipe.q.bgEnabled && p.pipe.f.step >= WRITE_LINE0 then |p'.pipe.q.bg| == 8
          else p'.pipe.q.bg == p.pipe.q.bg && (p.pipe.f.step != IDLE ==> p'.pipe.f.step >= Next(p.pipe.f.step)))
  {
    hide InStep;
    var s := p.Scene();
    var p1 := BackgroundTicked(p.pipe, s);
    BackgroundTick(p.pipe, s);
    BackgroundInStep(p.pipe, s, n);
    WinYKept(p.pipe, s);
    if p1.f.sprite.Some? && p1.f.step >= READ_LOW1 {
      ObjectTick(p1, s);
      ObjectInStep(p1, s, n);
    }
  }

  lemma WinYKept(p: Pipe, s: Scene)
    requires p.Valid() && s.Valid()
    ensures BackgroundTicked(p, s).f.winY == p.f.winY
    ensures p.f.sprite.Some? ==> ObjectTicked(p, s).f.winY == p.f.winY
  {
  }

  lemma FetchStep(p: Ppu)
    requires Inv(p) && p.pipe.f.sprite.None?
    requires !(p.pipe.q.bg == [] && p.pipe.q.bgEnabled && p.pipe.f.step >= WRITE_LINE0)
    ensures FetchTicked(p).pipe.f.step == Next(p.pipe.f.step)
  {
    BackgroundTick(p.pipe, p.Scene());
  }

  // No object is being fetched while a window is about to come in from beyond the left edge.
  ghost predicate LeftEdgeClear(p: Ppu)
  {
    p.pipe.f.mode == FmWindow && p.x < 0 ==> p.pipe.f.sprite.None?
  }

  lemma BgFetched(p: Ppu)
    requires Inv(p) && BgSide(p) && p.delay == 0 && LeftEdgeClear(p)
    ensures BgFed(FetchTicked(p))
  {
    hide Fetch.Ticked, InStep;
    if p.pipe.q.bg != [] {
      AheadIsTile(p, Passed(p));
    }
    FetchInStep(p, Passed(p));
    if p.pipe.f.mode == FmWindow && p.x < 0 {
      if !(p.pipe.q.bgEnabled && p.pipe.f.step >= WRITE_LINE0) {
        FetchStep(p);
      }
    } else if p.pipe.f.mode == FmBackground && p.x < 0 && p.pipe.q.bg == [] && p.pipe.q.bgEnabled {
      assert p.pipe.f.step == WRITE_LINE1;
    }
  }

  lemma AheadIsTile(p: Ppu, n: nat)
    requires p.Valid() && InStep(p.pipe, p.Scene(), n) && p.pipe.q.bg != []
    ensures n + |p.pipe.q.bg| >= 8
  {
  }

  // A dot that passes no column keeps what the next tick needs.
  lemma BgWaits(p: Ppu)
    requires Inv(p) && BgFed(p) && p.delay == 0 && (p.pipe.f.mode == FmWindow ==> p.x >= 0)
    ensures BgSide(p)
  {
    hide FetchedSoFar, StreamAt;
  }

  // The window starts at its own column, with an empty queue.
  lemma BgWindowStarts(p: Ppu)
    requires Inv(p) && BgFed(p) && WindowDue(p) && p.delay == 0
    ensures BgSide(StartWindow(p))
  {
    ShownLeftExact(p.regs);
  }

  // The pixel at the head of the queue is the one the picture has at this column.
  lemma BgHead(p: Ppu)
    requires Inv(p) && BgFed(p) && 0 <= p.x < WIDTH && !Stalled(p) && !WindowDue(p)
    ensures p.pipe.q.bg[0] == Under(p.Scene(), p.winY, ShownLeft(p.regs), p.x)
  {
    hide StreamAt, BackgroundAt, WindowAt, FetchedSoFar;
    var s := p.Scene();
    assert p.pipe.q.bg[0] == StreamAt(p.pipe.f.mode, p.pipe.f.winY, Passed(p) + 0, s);
    if p.pipe.f.mode == FmBackground {
      StreamIsBackground(s, p.pipe.f.winY, p.x);
    } else {
      StreamIsWindow(s, p.winY, p.x);
    }
  }

  lemma BgShifted(p: Ppu)
    requires Inv(p) && BgFed(p) && p.Mode() == DataXfer && p.delay == 0
    requires p.x + 1 < WIDTH && !Stalled(p) && !WindowDue(p)
    ensures PixelTaken(p).Valid() && BgSide(PixelTaken(p))
  {
    hide StreamAt, FetchedSoFar;
    var p' := PixelTaken(p);
    var n := Passed(p);
    if p.pipe.q.bg != [] {
      assert Passed(p') == n + 1;
      forall k | 0 <= k < |p'.pipe.q.bg|
        ensures p'.pipe.q.bg[k] == StreamAt(p.pipe.f.mode, p.pipe.f.winY, n + 1 + k, p.Scene())
      {
        assert p'.pipe.q.bg[k] == p.pipe.q.bg[k + 1];
        assert n + 1 + k == n + (k + 1);
      }
    }
  }
}
