/** The picture of module Picture is the one that the bytes describe. */
module Likeness {
  import opened Bytes
  import opened Pixels
  import opened Registers
  import opened PixelFifo
  import opened Oam
  import opened Fetch
  import opened Outputs
  import opened PpuCore
  import opened Picture
  import opened Blueprint

  // The registers as they read on the bus.
  function LookOf(r: Regs): Look
  {
    Look(r.Read(0xFF40), r.Read(0xFF42), r.Read(0xFF43), r.Read(0xFF47), r.Read(0xFF48), r.Read(0xFF49),
         r.Read(0xFF4A), r.Read(0xFF4B))
  }

  // ---- Bits

  lemma FourBits(b: nat, h: nat, f3: nat, f2: nat, f1: nat, f0: nat)
    requires b == 16 * h + 8 * f3 + 4 * f2 + 2 * f1 + f0 && f3 < 2 && f2 < 2 && f1 < 2 && f0 < 2
    ensures b % 2 == f0 && b / 2 % 2 == f1 && b / 2 / 2 % 2 == f2 && b / 2 / 2 / 2 % 2 == f3
    ensures b / 2 / 2 / 2 / 2 == h
  {
    assert b / 2 == 8 * h + 4 * f3 + 2 * f2 + f1;
    assert b / 2 / 2 == 4 * h + 2 * f3 + f2;
    assert b / 2 / 2 / 2 == 2 * h + f3;
  }

  lemma BitByHalves(b: Byte)
    ensures BitAt(b, 0) == b % 2 && BitAt(b, 1) == b / 2 % 2 && BitAt(b, 2) == b / 2 / 2 % 2
    ensures BitAt(b, 3) == b / 2 / 2 / 2 % 2 && BitAt(b, 4) == b / 2 / 2 / 2 / 2 % 2
    ensures BitAt(b, 5) == b / 2 / 2 / 2 / 2 / 2 % 2 && BitAt(b, 6) == b / 2 / 2 / 2 / 2 / 2 / 2 % 2
    ensures BitAt(b, 7) == b / 2 / 2 / 2 / 2 / 2 / 2 / 2 % 2
  {
    HalfAgain(b, 2);
    HalfAgain(b, 4);
    HalfAgain(b, 8);
    HalfAgain(b, 16);
    HalfAgain(b, 32);
    HalfAgain(b, 64);
  }

  lemma HalfAgain(x: nat, m: nat)
    requires m == 2 || m == 4 || m == 8 || m == 16 || m == 32 || m == 64
    ensures x / m / 2 == x / (2 * m)
  {
  }

  lemma BitIsBitAt(b: Byte, k: nat)
    requires k < 8
    ensures Bit(b, k) == BitAt(b, k)
  {
    BitByHalves(b);
    assert ShiftRight(b, 1) == b / 2;
    assert ShiftRight(b, 2) == ShiftRight(b, 1) / 2;
    assert ShiftRight(b, 3) == ShiftRight(b, 2) / 2;
    assert ShiftRight(b, 4) == ShiftRight(b, 3) / 2;
    assert ShiftRight(b, 5) == ShiftRight(b, 4) / 2;
    assert ShiftRight(b, 6) == ShiftRight(b, 5) / 2;
  }

  // LCDC, bit by bit.
  lemma LcdcBits(l: Lcdc)
    ensures var b := LcdcByte(l);
      && (BitAt(b, 0) == 1 <==> l.bgOn) && (BitAt(b, 1) == 1 <==> l.objOn)
      && (BitAt(b, 2) == 1 <==> l.tallObjs) && (BitAt(b, 3) == 1 <==> l.bgMapHigh)
      && (BitAt(b, 4) == 1 <==> l.data8000) && (BitAt(b, 5) == 1 <==> l.winOn)
      && (BitAt(b, 6) == 1 <==> l.winMapHigh) && (BitAt(b, 7) == 1 <==> l.enable)
  {
    hide BitAt;
    var b := LcdcByte(l);
    BitByHalves(b);
    var h := 8 * Flag(l.enable, 1) + 4 * Flag(l.winMapHigh, 1) + 2 * Flag(l.winOn, 1) + Flag(l.data8000, 1);
    Scaled(l);
    FourBits(b, h, Flag(l.bgMapHigh, 1), Flag(l.tallObjs, 1), Flag(l.objOn, 1), Flag(l.bgOn, 1));
    FourBits(h, 0, Flag(l.enable, 1), Flag(l.winMapHigh, 1), Flag(l.winOn, 1), Flag(l.data8000, 1));
  }

  lemma Scaled(l: Lcdc)
    ensures LcdcByte(l)
         == 16 * (8 * Flag(l.enable, 1) + 4 * Flag(l.winMapHigh, 1) + 2 * Flag(l.winOn, 1) + Flag(l.data8000, 1))
            + 8 * Flag(l.bgMapHigh, 1) + 4 * Flag(l.tallObjs, 1) + 2 * Flag(l.objOn, 1) + Flag(l.bgOn, 1)
  {
  }

  // The switches as the bus shows them.
  lemma LookBits(r: Regs)
    ensures var b := LookOf(r).lcdc;
      && (BitAt(b, 0) == 1 <==> r.lcdc.bgOn) && (BitAt(b, 1) == 1 <==> r.lcdc.objOn)
      && (BitAt(b, 2) == 1 <==> r.lcdc.tallObjs) && (BitAt(b, 3) == 1 <==> r.lcdc.bgMapHigh)
      && (BitAt(b, 4) == 1 <==> r.lcdc.data8000) && (BitAt(b, 5) == 1 <==> r.lcdc.winOn)
      && (BitAt(b, 6) == 1 <==> r.lcdc.winMapHigh) && (BitAt(b, 7) == 1 <==> r.lcdc.enable)
    ensures LookOf(r) == Look(LookOf(r).lcdc, r.scy, r.scx, r.bgp, r.obp0, r.obp1, r.wy, r.wx)
  {
    hide BitAt, LcdcByte;
    LcdcBits(r.lcdc);
  }

  // ---- Tiles

  lemma PlanesAreColour(vram: seq<Byte>, n: nat, row: nat, column: nat)
    requires |vram| == 0x2000 && n < 384 && row < 8 && column < 8
    ensures PlaneValue(vram[16 * n + 2 * row], vram[16 * n + 2 * row + 1], column) == Colour(vram, n, row, column)
  {
    hide BitAt, Bit;
    BitIsBitAt(vram[16 * n + 2 * row], 7 - column);
    BitIsBitAt(vram[16 * n + 2 * row + 1], 7 - column);
  }

  // The fetcher reads the bytes of the named tile's row.
  lemma TileIsNamed(t: Byte, row: Byte, plane: nat, r: Regs)
    requires r.OffsetsAgree() && plane < 2
    ensures TileAddr(t, row, plane, r) == 16 * NamedTile(LookOf(r).lcdc, t) + 2 * (row % 8) + plane
  {
    hide BitAt, LookOf;
    LookBits(r);
  }

  // An object's row, counted over one tile or two.
  lemma ObjectTile(t: Byte, row: Byte, plane: nat, tall: bool)
    requires plane < 2 && row < 16
    ensures ObjAddr(t, row, plane, tall) == 16 * ((if tall then t - t % 2 else t) + row / 8) + 2 * (row % 8) + plane
  {
  }

  lemma MapIsColour(s: Scene, high: bool, mx: nat, my: nat, kind: PixelType)
    requires s.Valid() && mx < 256 && my < 256
    ensures MapPixel(if high then OFFSET_9C00 else OFFSET_9800, mx, my, kind, s)
         == Pixel(MapColour(s.vram, LookOf(s.r).lcdc, high, mx, my), kind, false)
  {
    hide Colour, NamedTile, PlaneValue, TileAddr, LookOf;
    var base := if high then OFFSET_9C00 else OFFSET_9800;
    var t := s.vram[base + my / 8 * 32 + mx / 8];
    TileIsNamed(t, my, 0, s.r);
    TileIsNamed(t, my, 1, s.r);
    PlanesAreColour(s.vram, NamedTile(LookOf(s.r).lcdc, t), my % 8, mx % 8);
  }

  // ---- The layer below the objects

  // The layer's pixel, and what it shows when no object is in the way.
  lemma LayerIs(s: Scene, winY: Byte, left: int, c: Col)
    requires s.Valid() && LeftFits(s.r, left)
    ensures var l, px := LookOf(s.r), Under(s, winY, left, c);
      && (WindowCovers(l, s.r.ly, c) ==> 0 <= c - left < 256)
      && (if LayerOff(px, s.r.lcdc) then 0 else px.value) == LayerColour(l, s.vram, s.r.ly, c, winY, left)
      && Mixed(px, None, s.r) == LayerShade(l, s.vram, s.r.ly, c, winY, left)
  {
    hide BitAt, MapPixel, MapColour, LookOf;
    LookBits(s.r);
    if WindowShown(s.r, c) {
      MapIsColour(s, s.r.lcdc.winMapHigh, c - left, winY, Window);
    } else {
      MapIsColour(s, s.r.lcdc.bgMapHigh, (c + s.r.scx) % 256, (s.r.ly + s.r.scy) % 256, Background);
    }
  }

  // ---- One object

  lemma HeightIs(r: Regs)
    ensures Height(LookOf(r)) == if r.lcdc.tallObjs then 16 else 8
  {
    hide BitAt, LookOf;
    LookBits(r);
  }

  lemma LineIsCovered(r: Regs, oam: seq<Byte>, y: Byte, i: nat)
    requires |oam| == OAM_SIZE && i < 40
    ensures HasLine(LookOf(r), oam, y, i) <==> Covers(EntryAt(oam, i).y, y, r.lcdc.tallObjs)
  {
    hide Height, LookOf;
    HeightIs(r);
  }

  // The attributes are the bits of the fourth byte.
  lemma EntryBits(oam: seq<Byte>, i: nat)
    requires |oam| == OAM_SIZE && i < 40
    ensures var e, f := EntryAt(oam, i), oam[4 * i + 3];
      && (BitAt(f, 7) == 1 <==> e.belowBG) && (BitAt(f, 6) == 1 <==> e.yFlip)
      && (BitAt(f, 5) == 1 <==> e.xFlip) && (BitAt(f, 4) == 1 <==> e.OBP1)
      && e.y == oam[4 * i] && e.x == oam[4 * i + 1] && e.tile == oam[4 * i + 2] && e.oamIdx == i
  {
  }

  // The program's row of an object, and the tile it lies in.
  lemma RowAndTile(e: OamEntry, ly: Byte, tall: bool)
    requires Covers(e.y, ly, tall)
    ensures var height, down := if tall then 16 else 8, ly + 16 - e.y;
      var r := if e.yFlip then height - 1 - down else down;
      0 <= r < height && ObjRow(e, ly) == if e.yFlip && !tall then r + 8 else r
  {
  }

  // The colour of an object's line at a column.
  lemma LineColour(e: OamEntry, lo: Byte, hi: Byte, k: nat)
    requires k < 8
    ensures ObjLine(e, lo, hi).Get(k)
         == Pixel(PlaneValue(lo, hi, if e.xFlip then 7 - k else k), if e.OBP1 then Sprite1 else Sprite0, e.belowBG)
  {
    hide PlaneValue;
  }

  // Where an object has a pixel at all, it is the described one.
  lemma ObjectIsColour(s: Scene, oam: seq<Byte>, c: Col, i: nat)
    requires s.Valid() && |oam| == OAM_SIZE && i < 40 && Covers(EntryAt(oam, i).y, s.r.ly, s.r.lcdc.tallObjs)
    ensures HasLine(LookOf(s.r), oam, s.r.ly, i)
    ensures var e, v := EntryAt(oam, i), ObjectColour(LookOf(s.r), s.vram, oam, s.r.ly, c, i, true);
      ObjectAt(e, s, c)
      == if v != 0 then Some(Pixel(v, if e.OBP1 then Sprite1 else Sprite0, e.belowBG)) else None
  {
    hide BitAt, LookOf, Colour, PlaneValue, DecodedLine, ObjLine, ObjAddr, ObjRow, Height, EntryAt;
    var e, tall := EntryAt(oam, i), s.r.lcdc.tallObjs;
    LineIsCovered(s.r, oam, s.r.ly, i);
    HeightIs(s.r);
    EntryBits(oam, i);
    RowAndTile(e, s.r.ly, tall);
    var row := ObjRow(e, s.r.ly);
    var n := (if tall then e.tile - e.tile % 2 else e.tile) + row / 8;
    ObjectTile(e.tile, row, 0, tall);
    ObjectTile(e.tile, row, 1, tall);
    if e.x - 8 <= c < e.x {
      var k := c - (e.x - 8);
      var k' := if e.xFlip then 7 - k else k;
      LineColour(e, s.vram[16 * n + 2 * (row % 8)], s.vram[16 * n + 2 * (row % 8) + 1], k);
      PlanesAreColour(s.vram, n, row % 8, k');
    }
  }

  // ---- The ten objects of a line

  // The search list is what was found before entry n, followed by what it finds from there on.
  lemma {:induction false} SearchSplits(r: Regs, oam: seq<Byte>, y: Byte, n: nat)
    requires |oam| == OAM_SIZE && n <= 40
    ensures var all, k := OnLine(oam, y, r.lcdc.tallObjs, 0), Earlier(LookOf(r), oam, y, n);
      k <= |all| && all[k..] == OnLine(oam, y, r.lcdc.tallObjs, n)
  {
    hide HasLine, Covers, LookOf, EntryAt;
    if n > 0 {
      SearchSplits(r, oam, y, n - 1);
      LineIsCovered(r, oam, y, n - 1);
      EntryY(oam, n - 1);
      var all, k := OnLine(oam, y, r.lcdc.tallObjs, 0), Earlier(LookOf(r), oam, y, n - 1);
      if HasLine(LookOf(r), oam, y, n - 1) {
        assert all[k..][1..] == all[k + 1..];
      }
    }
  }

  lemma EntryY(oam: seq<Byte>, i: nat)
    requires |oam| == OAM_SIZE && i < 40
    ensures EntryAt(oam, i).y == oam[4 * i] && EntryAt(oam, i).oamIdx == i
  {
  }

  // Entry i stands behind the earlier ones.
  lemma FoundAt(r: Regs, oam: seq<Byte>, y: Byte, i: nat)
    requires |oam| == OAM_SIZE && i < 40 && HasLine(LookOf(r), oam, y, i)
    ensures var all, k := OnLine(oam, y, r.lcdc.tallObjs, 0), Earlier(LookOf(r), oam, y, i);
      k < |all| && all[k] == EntryAt(oam, i)
  {
    hide HasLine, Covers, LookOf, EntryAt, Earlier;
    SearchSplits(r, oam, y, i);
    LineIsCovered(r, oam, y, i);
    EntryY(oam, i);
    var all, k := OnLine(oam, y, r.lcdc.tallObjs, 0), Earlier(LookOf(r), oam, y, i);
    assert all[k..][0] == EntryAt(oam, i);
  }

  // The line's object list holds exactly the listed entries.
  lemma ListedIsFound(r: Regs, oam: seq<Byte>, y: Byte, i: nat)
    requires |oam| == OAM_SIZE && i < 40
    ensures EntryAt(oam, i) in LineObjs(oam, y, r.lcdc.tallObjs) <==> Listed(LookOf(r), oam, y, i)
  {
    hide Covers, HasLine, LookOf, EntryAt, Earlier, LineObjs, OnLine;
    var tall, e := r.lcdc.tallObjs, EntryAt(oam, i);
    var all := OnLine(oam, y, tall, 0);
    LineObjsCorrect(oam, y, tall);
    assert e in LineObjs(oam, y, tall) <==> e in multiset(LineObjs(oam, y, tall));
    assert e in FirstTen(all) <==> e in multiset(FirstTen(all));
    LineIsCovered(r, oam, y, i);
    if HasLine(LookOf(r), oam, y, i) {
      FoundAt(r, oam, y, i);
      OnLineOrdered(oam, y, tall, 0);
      OnceOnly(all, Earlier(LookOf(r), oam, y, i));
    }
  }

  lemma OnceOnly(all: seq<OamEntry>, k: nat)
    requires k < |all| && IndexOrdered(all)
    ensures all[k] in FirstTen(all) <==> k < 10
  {
    if k < 10 {
      assert FirstTen(all)[k] == all[k];
    }
  }

  // ---- The object on top

  lemma OpaqueIsPixel(s: Scene, oam: seq<Byte>, c: Col, i: nat)
    requires s.Valid() && |oam| == OAM_SIZE && i < 40 && s.r.lcdc.objOn
    ensures Opaque(LookOf(s.r), s.vram, oam, s.r.ly, c, i, true)
       <==> EntryAt(oam, i) in LineObjs(oam, s.r.ly, s.r.lcdc.tallObjs) && ObjectAt(EntryAt(oam, i), s, c).Some?
  {
    hide BitAt, LookOf, EntryAt, LineObjs, ObjectAt, ObjectColour, Earlier, HasLine;
    LookBits(s.r);
    ListedIsFound(s.r, oam, s.r.ly, i);
    LineIsCovered(s.r, oam, s.r.ly, i);
    if HasLine(LookOf(s.r), oam, s.r.ly, i) {
      ObjectIsColour(s, oam, c, i);
    }
  }

  lemma FrontIsBefore(oam: seq<Byte>, i: nat, j: nat)
    requires |oam| == OAM_SIZE && i < 40 && j < 40
    ensures InFront(oam, i, j) <==> Before(EntryAt(oam, i), EntryAt(oam, j))
  {
  }

  // Entries of a list are told apart by their index.
  lemma ListEntry(oam: seq<Byte>, y: Byte, tall: bool, e: OamEntry)
    requires |oam| == OAM_SIZE && e in LineObjs(oam, y, tall)
    ensures 0 <= e.oamIdx < 40 && e == EntryAt(oam, e.oamIdx)
  {
    hide LineObjs, EntryAt;
    LineObjsCorrect(oam, y, tall);
  }

  // A described top object is the topmost of the list.
  lemma TopIsFound(s: Scene, oam: seq<Byte>, c: Col, i: nat)
    requires s.Valid() && |oam| == OAM_SIZE && i < 40 && s.r.lcdc.objOn
    requires Top(LookOf(s.r), s.vram, oam, s.r.ly, c, i, true)
    ensures var objs := LineObjs(oam, s.r.ly, s.r.lcdc.tallObjs);
      TopObject(objs, s, c) == ObjectAt(EntryAt(oam, i), s, c) && ObjectAt(EntryAt(oam, i), s, c).Some?
  {
    hide LookOf, EntryAt, LineObjs, ObjectAt, Opaque, InFront, Before, TopObject;
    var tall := s.r.lcdc.tallObjs;
    var objs, e := LineObjs(oam, s.r.ly, tall), EntryAt(oam, i);
    LineObjsCorrect(oam, s.r.ly, tall);
    OpaqueIsPixel(s, oam, c, i);
    forall d | d in objs && ObjectAt(d, s, c).Some?
      ensures d == e || Before(e, d)
    {
      ListEntry(oam, s.r.ly, tall, d);
      OpaqueIsPixel(s, oam, c, d.oamIdx);
      FrontIsBefore(oam, i, d.oamIdx);
    }
    TopObjectHasPriority(objs, s, c, e);
  }

  // And if the list has a topmost object, there is a described one.
  lemma FoundIsTop(s: Scene, oam: seq<Byte>, c: Col) returns (i: nat)
    requires s.Valid() && |oam| == OAM_SIZE && s.r.lcdc.objOn
    requires TopObject(LineObjs(oam, s.r.ly, s.r.lcdc.tallObjs), s, c).Some?
    ensures i < 40 && Top(LookOf(s.r), s.vram, oam, s.r.ly, c, i, true)
  {
    hide LookOf, EntryAt, LineObjs, ObjectAt, Opaque, InFront, Before, TopObject;
    var tall := s.r.lcdc.tallObjs;
    var objs := LineObjs(oam, s.r.ly, tall);
    LineObjsCorrect(oam, s.r.ly, tall);
    TopObjectIsFirst(objs, s, c);
    var k :| 0 <= k < |objs| && TopObject(objs, s, c) == ObjectAt(objs[k], s, c)
             && forall j :: 0 <= j < k ==> ObjectAt(objs[j], s, c) == None;
    ListEntry(oam, s.r.ly, tall, objs[k]);
    i := objs[k].oamIdx;
    OpaqueIsPixel(s, oam, c, i);
    forall j: nat | j < 40 && j != i && Opaque(LookOf(s.r), s.vram, oam, s.r.ly, c, j, true)
      ensures InFront(oam, i, j)
    {
      OpaqueIsPixel(s, oam, c, j);
      EntryY(oam, i);
      EntryY(oam, j);
      var n :| 0 <= n < |objs| && objs[n] == EntryAt(oam, j);
      FrontIsBefore(oam, i, j);
    }
  }

  // ---- The pixel

  lemma GreyIs(v: Shade)
    ensures Level(v) == GREYS[v]
  {
  }

  // An object's pixel over the layer.
  lemma MixedIs(px: Pixel, obj: Pixel, r: Regs)
    requires obj.value != 0
    ensures var under := if LayerOff(px, r.lcdc) then 0 else px.value;
      Mixed(px, Some(obj), r)
      == if obj.belowBg && under != 0 then Mixed(px, None, r)
         else ShadeOf(if obj.kind == Sprite0 then r.obp0 else r.obp1, obj.value)
  {
  }

  lemma TopShows(s: Scene, oam: seq<Byte>, winY: Byte, left: int, c: Col, i: nat)
    requires s.Valid() && |oam| == OAM_SIZE && LeftFits(s.r, left) && i < 40 && s.r.lcdc.objOn
    requires Top(LookOf(s.r), s.vram, oam, s.r.ly, c, i, true)
    ensures var l := LookOf(s.r);
      && (WindowCovers(l, s.r.ly, c) ==> 0 <= c - left < 256) && HasLine(l, oam, s.r.ly, i)
      && LevelAt(s, winY, left, LineObjs(oam, s.r.ly, s.r.lcdc.tallObjs), c)
         == GREYS[TopShade(l, s.vram, oam, s.r.ly, c, winY, left, i, true)]
  {
    hide BitAt, LookOf, EntryAt, LineObjs, ObjectAt, ObjectColour, TopObject, Under, Mixed, LayerColour, LayerShade,
         LayerOff, WindowCovers, HasLine, ShadeOf, Covers, Earlier, InFront;
    var px := Under(s, winY, left, c);
    LayerIs(s, winY, left, c);
    TopIsFound(s, oam, c, i);
    LineIsCovered(s.r, oam, s.r.ly, i);
    ObjectIsColour(s, oam, c, i);
    EntryBits(oam, i);
    LookBits(s.r);
    MixedIs(px, ObjectAt(EntryAt(oam, i), s, c).value, s.r);
    GreyIs(Mixed(px, ObjectAt(EntryAt(oam, i), s, c), s.r));
  }

  // What a line shows, with the window's left edge where the register or the program puts it, is what the
  // bytes describe (with small flipped objects taken from the tile after their own).
  lemma LevelIsDescribed(s: Scene, oam: seq<Byte>, winY: Byte, left: int, c: Col)
    requires s.Valid() && |oam| == OAM_SIZE && LeftFits(s.r, left)
    ensures WindowCovers(LookOf(s.r), s.r.ly, c) ==> 0 <= c - left < 256
    ensures Describes(LevelAt(s, winY, left, LineObjs(oam, s.r.ly, s.r.lcdc.tallObjs), c),
                  LookOf(s.r), s.vram, oam, s.r.ly, c, winY, left, true)
  {
    hide BitAt, LookOf, LineObjs, TopObject, Under, Mixed, LayerColour, LayerShade, LayerOff, TopShade, Top, LevelAt,
         WindowCovers;
    var l, objs := LookOf(s.r), LineObjs(oam, s.r.ly, s.r.lcdc.tallObjs);
    LayerIs(s, winY, left, c);
    forall i: nat | i < 40 && Top(l, s.vram, oam, s.r.ly, c, i, true)
      ensures HasLine(l, oam, s.r.ly, i)
      ensures LevelAt(s, winY, left, objs, c) == GREYS[TopShade(l, s.vram, oam, s.r.ly, c, winY, left, i, true)]
    {
      TopNeedsObjects(s.r, s.vram, oam, s.r.ly, c, i);
      TopShows(s, oam, winY, left, c, i);
    }
    if forall i: nat :: i < 40 ==> !Top(l, s.vram, oam, s.r.ly, c, i, true) {
      NoTopShows(s, oam, winY, left, c);
    }
  }

  lemma TopNeedsObjects(r: Regs, vram: seq<Byte>, oam: seq<Byte>, y: Byte, c: Col, i: nat)
    requires Memories(vram, oam) && i < 40 && Top(LookOf(r), vram, oam, y, c, i, true)
    ensures r.lcdc.objOn
  {
    hide BitAt, LookOf;
    LookBits(r);
  }

  lemma NoTopShows(s: Scene, oam: seq<Byte>, winY: Byte, left: int, c: Col)
    requires s.Valid() && |oam| == OAM_SIZE && LeftFits(s.r, left)
    requires forall i: nat :: i < 40 ==> !Top(LookOf(s.r), s.vram, oam, s.r.ly, c, i, true)
    ensures WindowCovers(LookOf(s.r), s.r.ly, c) ==> 0 <= c - left < 256
    ensures LevelAt(s, winY, left, LineObjs(oam, s.r.ly, s.r.lcdc.tallObjs), c)
         == GREYS[LayerShade(LookOf(s.r), s.vram, s.r.ly, c, winY, left)]
  {
    hide BitAt, LookOf, LineObjs, TopObject, Under, Mixed, LayerColour, LayerShade, LayerOff, Top, WindowCovers;
    LayerIs(s, winY, left, c);
    if s.r.lcdc.objOn && TopObject(LineObjs(oam, s.r.ly, s.r.lcdc.tallObjs), s, c).Some? {
      var i := FoundIsTop(s, oam, c);
    }
    GreyIs(Mixed(Under(s, winY, left, c), None, s.r));
  }

  // ---- The pixel queue on its own

  // The layer's pixel is blank while its switch is off.
  predicate Blank(px: Pixel, lcdc: Byte)
  {
    (px.kind == Background && BitAt(lcdc, 0) == 0) || (px.kind == Window && BitAt(lcdc, 5) == 0)
  }

  // What a pop shows, whatever is queued: an opaque object pixel in front of everything, or below every
  // opaque pixel of the layer if it says so; otherwise the layer.
  lemma OutputLayers(q: Fifo, r: Regs)
    requires q.Valid() && !q.locked && q.bg != []
    ensures var l, px := LookOf(r), q.bg[0];
      var layer := if Blank(px, l.lcdc) then 0 else ShadeOf(l.bgp, px.value);
      if BitAt(l.lcdc, 1) == 1 && q.obj != [] && q.obj[0].value != 0 then
        var own := ShadeOf(if q.obj[0].kind == Sprite0 then l.obp0 else l.obp1, q.obj[0].value);
        && (!q.obj[0].belowBg ==> q.Output(r) == own)
        && (q.obj[0].belowBg && (px.value == 0 || Blank(px, l.lcdc)) ==> q.Output(r) == own)
        && (q.obj[0].belowBg && px.value != 0 && !Blank(px, l.lcdc) ==> q.Output(r) == layer)
      else q.Output(r) == layer
  {
    hide BitAt, LookOf;
    LookBits(r);
  }

  // What a pop takes: nothing from a locked queue; a background pixel if there is one; an object pixel if
  // there is one, but with background only while objects are on.
  lemma PopTakes(q: Fifo, r: Regs)
    requires q.Valid()
    ensures var t, on := q.Popped(r), BitAt(LookOf(r).lcdc, 1) == 1;
      && t.locked == q.locked && t.bgEnabled == q.bgEnabled
      && t.bg == (if q.locked || q.bg == [] then q.bg else q.bg[1..])
      && t.obj == (if q.locked || q.obj == [] || (q.bg != [] && !on) then q.obj else q.obj[1..])
  {
    hide BitAt, LookOf;
    LookBits(r);
  }

  // What a tile line adds to the background queue: its eight pixels, unless more than eight are queued or
  // the background is still off.
  lemma LoadTakes(q: Fifo, line: TileLine)
    requires q.Valid() && line.Valid()
    ensures var t := q.LoadBg(line);
      && t.obj == q.obj && t.locked == q.locked && t.bgEnabled == q.bgEnabled
      && t.bg == (if |q.bg| <= 8 && q.bgEnabled
                  then q.bg + seq(8, k requires 0 <= k < 8 => line.pixels[if line.flipped then 7 - k else k])
                  else q.bg)
  {
  }
}
