/** The picture the registers, video memory and object memory describe, without any pipeline. */
module Picture {
  import opened Bytes
  import opened Pixels
  import opened Registers
  import opened PixelFifo
  import opened Oam
  import opened Fetch
  import opened Outputs
  import opened PpuCore

  // One pixel of a 256 x 256 tile map.
  function MapPixel(base: int, mx: nat, my: nat, kind: PixelType, s: Scene): Pixel
    requires s.Valid() && mx < 256 && my < 256 && (base == OFFSET_9800 || base == OFFSET_9C00)
  {
    var tile := s.vram[base + my / 8 * 32 + mx / 8];
    Pixel(PlaneValue(s.vram[TileAddr(tile, my, 0, s.r)], s.vram[TileAddr(tile, my, 1, s.r)], mx % 8), kind, false)
  }

  // The background scrolls and wraps around.
  function BackgroundAt(s: Scene, c: Col): Pixel
    requires s.Valid()
  {
    MapPixel(s.r.bgMap, (c + s.r.scx) % 256, (s.r.ly + s.r.scy) % 256, Background, s)
  }

  // The window's top left corner is at column wx - 7; `winY` counts its rows.
  predicate WindowShown(r: Regs, c: int)
  {
    r.lcdc.winOn && r.ly >= r.wy && c >= r.wx - 7
  }

  // The column the register stands for, and the one where the program lets the window begin: a
  // window that should reach beyond the left edge is drawn from its own first or second column.
  function WindowLeft(r: Regs): int
  {
    r.wx - 7
  }

  function ShownLeft(r: Regs): (left: int)
    ensures left >= -1
  {
    if r.wx >= 7 then r.wx - 7 else if r.wx == 0 && r.scx % 8 != 0 then -1 else 0
  }

  lemma ShownLeftExact(r: Regs)
    ensures ShownLeft(r) == WindowLeft(r) <==> r.wx >= 7
    ensures r.wx < 7 ==> WindowLeft(r) < ShownLeft(r) <= 0
  {
  }

  function WindowAt(s: Scene, winY: Byte, left: int, c: Col): Pixel
    requires s.Valid() && 0 <= c - left < 256
  {
    MapPixel(s.r.winMap, c - left, winY, Window, s)
  }

  // The row of object `e` on line ly, read where the program reads it.
  function ObjectRow(e: OamEntry, s: Scene): TileLine
    requires s.Valid()
  {
    var row, tall := ObjRow(e, s.r.ly), s.r.lcdc.tallObjs;
    ObjLine(e, s.vram[ObjAddr(e.tile, row, 0, tall)], s.vram[ObjAddr(e.tile, row, 1, tall)])
  }

  // The pixel object `e` has at column c, if it has an opaque one there.
  function ObjectAt(e: OamEntry, s: Scene, c: int): (px: Option<Pixel>)
    requires s.Valid()
    ensures px.Some? ==> px.value.value != 0 && e.x - 8 <= c < e.x
  {
    if e.x - 8 <= c < e.x && ObjectRow(e, s).Get(c - (e.x - 8)).value != 0 then
      Some(ObjectRow(e, s).Get(c - (e.x - 8)))
    else
      None
  }

  // The first object of the list that is opaque at column c.
  function TopObject(objs: seq<OamEntry>, s: Scene, c: int): (px: Option<Pixel>)
    requires s.Valid()
    ensures px.Some? ==> px.value.value != 0
  {
    if objs == [] then None
    else
      var upper := TopObject(objs[..|objs| - 1], s, c);
      if upper.Some? then upper else ObjectAt(objs[|objs| - 1], s, c)
  }

  // `left` is the column of the window's left edge.
  predicate LeftFits(r: Regs, left: int)
  {
    left == WindowLeft(r) || left == ShownLeft(r)
  }

  function Under(s: Scene, winY: Byte, left: int, c: Col): Pixel
    requires s.Valid() && LeftFits(s.r, left)
  {
    if WindowShown(s.r, c) then WindowAt(s, winY, left, c) else BackgroundAt(s, c)
  }

  // What column c of line s.r.ly shows.
  function LevelAt(s: Scene, winY: Byte, left: int, objs: seq<OamEntry>, c: Col): Byte
    requires s.Valid() && LeftFits(s.r, left)
  {
    Level(Mixed(Under(s, winY, left, c), if s.r.lcdc.objOn then TopObject(objs, s, c) else None, s.r))
  }

  // ---- TopObject is the opaque object of highest priority

  lemma {:induction false} TopObjectIsFirst(objs: seq<OamEntry>, s: Scene, c: int)
    requires s.Valid()
    ensures TopObject(objs, s, c) == None <==> forall k :: 0 <= k < |objs| ==> ObjectAt(objs[k], s, c) == None
    ensures TopObject(objs, s, c).Some? ==>
      exists k :: 0 <= k < |objs| && TopObject(objs, s, c) == ObjectAt(objs[k], s, c)
                  && forall j :: 0 <= j < k ==> ObjectAt(objs[j], s, c) == None
  {
    if objs != [] {
      var upper := objs[..|objs| - 1];
      TopObjectIsFirst(upper, s, c);
      assert forall k :: 0 <= k < |upper| ==> upper[k] == objs[k];
      if TopObject(upper, s, c).Some? {
        var k :| 0 <= k < |upper| && TopObject(upper, s, c) == ObjectAt(upper[k], s, c)
                 && forall j :: 0 <= j < k ==> ObjectAt(upper[j], s, c) == None;
        assert ObjectAt(objs[k], s, c) == TopObject(objs, s, c);
      }
    }
  }

  // In a line's object list, that is the opaque object with the smallest (x, OAM index).
  lemma TopObjectHasPriority(objs: seq<OamEntry>, s: Scene, c: int, e: OamEntry)
    requires s.Valid() && StrictlyOrdered(objs)
    requires e in objs && ObjectAt(e, s, c).Some?
    requires forall d :: d in objs && ObjectAt(d, s, c).Some? ==> d == e || Before(e, d)
    ensures TopObject(objs, s, c) == ObjectAt(e, s, c)
  {
    TopObjectIsFirst(objs, s, c);
    var k :| 0 <= k < |objs| && TopObject(objs, s, c) == ObjectAt(objs[k], s, c)
             && forall j :: 0 <= j < k ==> ObjectAt(objs[j], s, c) == None;
    var i :| 0 <= i < |objs| && objs[i] == e;
    assert i == k;
  }

  // ---- Which tile row an object shows

  // Counted from the top of the object; a flipped object counts from the bottom.
  function TrueRow(e: OamEntry, ly: Byte, tall: bool): int
  {
    var row := ly + 16 - e.y;
    if e.yFlip then (if tall then 15 else 7) - row else row
  }

  // The row read is the true one, except for a flipped object of 8 x 8, which reads eight rows
  // too far: into the tile that follows.
  lemma ObjRowExact(e: OamEntry, ly: Byte, tall: bool)
    requires Covers(e.y, ly, tall)
    ensures ObjRow(e, ly) == TrueRow(e, ly, tall) <==> !e.yFlip || tall
    ensures e.yFlip && !tall ==> ObjRow(e, ly) == TrueRow(e, ly, tall) + 8
    ensures e.yFlip && !tall ==>
      forall plane: nat :: plane < 2 ==>
        ObjAddr(e.tile, ObjRow(e, ly), plane, tall) == (e.tile + 1) * 16 + TrueRow(e, ly, tall) * 2 + plane
  {
  }

  lemma FlippedSmallObjectReadsNextTile()
    ensures var e := OamEntry(0, 8, 16, 1, 0x40, true, false, false, false);
      Covers(e.y, 0, false) && ObjRow(e, 0) == 15 && TrueRow(e, 0, false) == 7
  {
  }
}
