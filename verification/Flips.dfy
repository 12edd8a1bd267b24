/** The picture with vertically flipped objects where they belong, and when the program draws that one. */
module Flips {
  import opened Bytes
  import opened Pixels
  import opened PixelFifo
  import opened Oam
  import opened Fetch
  import opened Outputs
  import opened PpuCore
  import opened Conservation
  import opened Picture
  import opened Blueprint
  import opened Likeness
  import opened Frame
  import opened WindowEdge

  // The row of object `e` on line ly, counted from its own top.
  function TrueObjectRow(e: OamEntry, s: Scene): TileLine
    requires s.Valid() && Covers(e.y, s.r.ly, s.r.lcdc.tallObjs)
  {
    var row, tall := TrueRow(e, s.r.ly, s.r.lcdc.tallObjs), s.r.lcdc.tallObjs;
    ObjLine(e, s.vram[ObjAddr(e.tile, row, 0, tall)], s.vram[ObjAddr(e.tile, row, 1, tall)])
  }

  function TrueObjectAt(e: OamEntry, s: Scene, c: int): Option<Pixel>
    requires s.Valid() && Covers(e.y, s.r.ly, s.r.lcdc.tallObjs)
  {
    if e.x - 8 <= c < e.x && TrueObjectRow(e, s).Get(c - (e.x - 8)).value != 0 then
      Some(TrueObjectRow(e, s).Get(c - (e.x - 8)))
    else
      None
  }

  ghost predicate AllCover(objs: seq<OamEntry>, s: Scene)
  {
    forall k :: 0 <= k < |objs| ==> Covers(objs[k].y, s.r.ly, s.r.lcdc.tallObjs)
  }

  ghost function TrueTop(objs: seq<OamEntry>, s: Scene, c: int): Option<Pixel>
    requires s.Valid() && AllCover(objs, s)
  {
    if objs == [] then None
    else
      var upper := TrueTop(objs[..|objs| - 1], s, c);
      if upper.Some? then upper else TrueObjectAt(objs[|objs| - 1], s, c)
  }

  // ---- One object: exactly the small flipped ones are drawn wrongly

  // Whatever VRAM holds, the row drawn is the object's own if and only if the object is not
  // flipped or is sixteen rows tall.
  lemma ObjectRowExact(e: OamEntry, s: Scene)
    requires s.Valid() && Covers(e.y, s.r.ly, s.r.lcdc.tallObjs)
    ensures (forall vram: seq<Byte> :: |vram| == VRAM_SIZE ==>
              ObjectRow(e, s.(vram := vram)) == TrueObjectRow(e, s.(vram := vram)))
            <==> !e.yFlip || s.r.lcdc.tallObjs
  {
    hide DecodedLine;
    ObjRowExact(e, s.r.ly, s.r.lcdc.tallObjs);
    if e.yFlip && !s.r.lcdc.tallObjs {
      var at := ObjAddr(e.tile, TrueRow(e, s.r.ly, false), 0, false);
      var vram: seq<Byte> := seq(VRAM_SIZE, i => if i == at then 0xFF else 0);
      OneRowDiffers(e);
      var t := s.(vram := vram);
      assert ObjectRow(e, t) == ObjLine(e, 0, 0) && TrueObjectRow(e, t) == ObjLine(e, 0xFF, 0);
    }
  }

  lemma OneRowDiffers(e: OamEntry)
    ensures ObjLine(e, 0xFF, 0) != ObjLine(e, 0, 0)
  {
    assert Bit(0xFF, 7) == 1 && Bit(0, 7) == 0 by {
      assert ShiftRight(0xFF, 3) == 0x1F && ShiftRight(0, 3) == 0;
    }
    assert ObjLine(e, 0xFF, 0).pixels[0].value == 1 && ObjLine(e, 0, 0).pixels[0].value == 0;
  }

  // ---- The frame

  // No object of eight rows is flipped.
  ghost predicate NoSmallFlips(p: Ppu)
    requires |p.oam| == OAM_SIZE
  {
    p.regs.lcdc.objOn && !p.regs.lcdc.tallObjs ==> forall idx: nat :: idx < 40 ==> !EntryAt(p.oam, idx).yFlip
  }

  lemma {:induction false} TopIsTrue(objs: seq<OamEntry>, s: Scene, c: int)
    requires s.Valid() && AllCover(objs, s)
    requires forall k :: 0 <= k < |objs| ==> !objs[k].yFlip || s.r.lcdc.tallObjs
    ensures TopObject(objs, s, c) == TrueTop(objs, s, c)
  {
    hide ObjectRow, TrueObjectRow;
    if objs != [] {
      var e := objs[|objs| - 1];
      TopIsTrue(objs[..|objs| - 1], s, c);
      ObjectRowExact(e, s);
      assert s.(vram := s.vram) == s;
      assert ObjectRow(e, s.(vram := s.vram)) == TrueObjectRow(e, s.(vram := s.vram));
    }
  }

  lemma LineObjsCover(oam: seq<Byte>, s: Scene)
    requires |oam| == OAM_SIZE
    ensures AllCover(LineObjs(oam, s.r.ly, s.r.lcdc.tallObjs), s)
  {
    hide LineObjs, Covers;
    LineObjsCorrect(oam, s.r.ly, s.r.lcdc.tallObjs);
    var objs := LineObjs(oam, s.r.ly, s.r.lcdc.tallObjs);
    assert forall k :: 0 <= k < |objs| ==> objs[k] in objs;
  }

  // What cell (y, c) should hold: window where WX puts it, objects read from their own rows.
  ghost function TruePictureAt(p: Ppu, y: Row, c: Col): Byte
    requires p.Valid()
  {
    var s := Fetch.Scene(p.regs.(ly := y), p.vram, p.found);
    LineObjsCover(p.oam, s);
    var objs := LineObjs(p.oam, y, p.regs.lcdc.tallObjs);
    Level(Mixed(Under(s, WinRow(p.regs, y), WindowLeft(p.regs), c),
                if p.regs.lcdc.objOn then TrueTop(objs, s, c) else None, p.regs))
  }

  lemma PictureIsTrue(p: Ppu, y: Row, c: Col)
    requires p.Valid() && NoSmallFlips(p)
    ensures PictureAt(p, y, c) == TruePictureAt(p, y, c)
  {
    hide LineObjs, TopObject, TrueTop, Under, Covers, ToPalette, LayerOff;
    var s := Fetch.Scene(p.regs.(ly := y), p.vram, p.found);
    var objs := LineObjs(p.oam, y, p.regs.lcdc.tallObjs);
    LineObjsCover(p.oam, s);
    LineObjsCorrect(p.oam, y, p.regs.lcdc.tallObjs);
    assert forall k :: 0 <= k < |objs| ==> objs[k] in objs;
    if p.regs.lcdc.objOn {
      TopIsTrue(objs, s, c);
    }
  }

  // `level` is what the bytes describe, every object taken from its own tile.
  ghost predicate BytesShowTruly(p: Ppu, y: Row, c: Col, level: Byte)
    requires p.Valid()
  {
    var l := LookOf(p.regs);
    && (WindowCovers(l, y, c) ==> 0 <= c - (l.wx - 7) < 256)
    && Describes(level, l, p.vram, p.oam, y, c, Max(0, y - l.wy), l.wx - 7, false)
  }

  lemma NothingBeyond(p: Ppu, y: nat, c: Col, i: nat)
    requires p.Valid() && NoSmallFlips(p) && i < 40 && p.regs.lcdc.objOn && HasLine(LookOf(p.regs), p.oam, y, i)
    ensures ObjectColour(LookOf(p.regs), p.vram, p.oam, y, c, i, true)
         == ObjectColour(LookOf(p.regs), p.vram, p.oam, y, c, i, false)
  {
    hide LookOf, BitAt, Colour, EntryAt;
    LookBits(p.regs);
    HeightIs(p.regs);
    EntryBits(p.oam, i);
  }

  lemma TrulyFromBytes(p: Ppu, y: Row, c: Col)
    requires p.Valid() && NoSmallFlips(p)
    ensures BytesShowTruly(p, y, c, PictureAt(p, y, c))
  {
    hide PictureAt, LookOf, BitAt, ObjectColour, LayerShade, LayerColour, ShadeOf, HasLine, Earlier, InFront,
         NoSmallFlips, Height, WindowCovers;
    var l := LookOf(p.regs);
    PictureIsFromBytes(p, y, c);
    LookBits(p.regs);
    forall i: nat | i < 40 && p.regs.lcdc.objOn && HasLine(l, p.oam, y, i)
      ensures ObjectColour(l, p.vram, p.oam, y, c, i, true) == ObjectColour(l, p.vram, p.oam, y, c, i, false)
    {
      NothingBeyond(p, y, c, i);
    }
    assert forall i: nat :: i < 40 ==>
      Opaque(l, p.vram, p.oam, y, c, i, true) == Opaque(l, p.vram, p.oam, y, c, i, false);
    assert forall i: nat :: i < 40 ==> Top(l, p.vram, p.oam, y, c, i, true) == Top(l, p.vram, p.oam, y, c, i, false);
  }

  // With the window on screen and no flipped object of eight rows, the frame is the true picture.
  lemma FrameShowsTruePicture(p: Ppu, sizes: seq<nat>)
    requires FrameStart(p) && WindowFits(p.regs) && Sum(sizes) == FRAME_CYCLES && |p.oam| == OAM_SIZE && NoSmallFlips(p)
    ensures p.Valid()
    ensures forall y: Row, c: Col, before: Byte :: Cell(Batches(p, sizes).o, y, c, before) == TruePictureAt(p, y, c)
    ensures forall y: Row, c: Col :: BytesShowTruly(p, y, c, TruePictureAt(p, y, c))
  {
    hide FrameStart, Batches, PictureAt, TruePictureAt, NoSmallFlips, Cell, BytesShowTruly;
    FrameShowsPicture(p, sizes);
    forall y: Row, c: Col
      ensures PictureAt(p, y, c) == TruePictureAt(p, y, c) && BytesShowTruly(p, y, c, TruePictureAt(p, y, c))
    {
      PictureIsTrue(p, y, c);
      TrulyFromBytes(p, y, c);
    }
  }

  // ---- For which registers, whatever the memories and palettes hold

  function Repainted(p: Ppu, vram: seq<Byte>, oam: seq<Byte>, bgp: Byte, obp0: Byte, obp1: Byte): Ppu
  {
    p.(vram := vram, oam := oam, regs := p.regs.(bgp := bgp, obp0 := obp0, obp1 := obp1))
  }

  ghost predicate ShowsTruePicture(p: Ppu, sizes: seq<nat>)
  {
    && p.Valid()
    && forall y: Row, c: Col, before: Byte :: Cell(Batches(p, sizes).o, y, c, before) == TruePictureAt(p, y, c)
  }

  lemma RepaintedStart(p: Ppu, vram: seq<Byte>, oam: seq<Byte>, bgp: Byte, obp0: Byte, obp1: Byte)
    requires FrameStart(p) && |vram| == VRAM_SIZE && |oam| == OAM_SIZE
    ensures var q := Repainted(p, vram, oam, bgp, obp0, obp1);
      FrameStart(q) && q.Valid() && q.regs.lcdc == p.regs.lcdc && WindowFits(q.regs) == WindowFits(p.regs)
  {
  }

  // One flipped object of eight rows on line 0, and a memory in which only its own row is opaque.
  const FLIPPED: seq<Byte> := seq(OAM_SIZE, i => if i == 0 then 16 else if i == 1 then 8 else if i == 2 then 1
                                                 else if i == 3 then 0x40 else 0)
  const MARKED: seq<Byte> := seq(VRAM_SIZE, a => if a == 30 then 0xFF else 0)
  const FLIPPED_ENTRY := OamEntry(0, 8, 16, 1, 0x40, true, false, false, false)

  lemma OneObject()
    ensures LineObjs(FLIPPED, 0, false) == [FLIPPED_ENTRY]
  {
    hide ExchangeSort, FirstTen;
    var later := OnLine(FLIPPED, 0, false, 1);
    assert EntryAt(FLIPPED, 0) == FLIPPED_ENTRY;
    assert forall idx: nat :: 1 <= idx < 40 ==> EntryAt(FLIPPED, idx).y == 0;
    forall e
      ensures e !in later
    {
      OnLineMember(FLIPPED, 0, false, 1, e);
    }
    HasMember(later);
    assert OnLine(FLIPPED, 0, false, 0) == [FLIPPED_ENTRY] + later == [FLIPPED_ENTRY];
    OneIsSorted(FLIPPED_ENTRY);
  }

  lemma OneIsSorted(e: OamEntry)
    ensures ExchangeSort(FirstTen([e]), 0) == [e]
  {
  }

  lemma MarkedRow(s: Scene)
    requires s.Valid() && s.vram == MARKED && s.r.ly == 0 && !s.r.lcdc.tallObjs
    ensures TopObject([FLIPPED_ENTRY], s, 0) == None
    ensures AllCover([FLIPPED_ENTRY], s) && TrueTop([FLIPPED_ENTRY], s, 0) == Some(Pixel(1, Sprite0, false))
  {
    hide PlaneValue;
    ZeroPlanes();
    assert ObjectRow(FLIPPED_ENTRY, s) == ObjLine(FLIPPED_ENTRY, 0, 0);
    assert TrueObjectRow(FLIPPED_ENTRY, s) == ObjLine(FLIPPED_ENTRY, 0xFF, 0);
    assert [FLIPPED_ENTRY][..0] == [];
  }

  lemma ZeroPlanes()
    ensures forall i: nat :: i < 8 ==> PlaneValue(0, 0, i) == 0
    ensures PlaneValue(0xFF, 0, 0) == 1
  {
    forall i: nat | i < 8
      ensures ShiftRight(0, i) == 0
    {
    }
    assert ShiftRight(0xFF, 3) == 0x1F;
  }

  lemma BlankUnder(s: Scene, winY: Byte, left: int, c: Col)
    requires s.Valid() && s.vram == MARKED && LeftFits(s.r, left)
    ensures Under(s, winY, left, c).value == 0
  {
    hide PlaneValue;
    ZeroPlanes();
  }

  lemma FlippedDiffers(p: Ppu)
    requires FrameStart(p) && p.regs.lcdc.objOn && !p.regs.lcdc.tallObjs
    ensures var q := Repainted(p, MARKED, FLIPPED, 0, 0x0C, 0);
      q.Valid() && PictureAt(q, 0, 0) == 255 && TruePictureAt(q, 0, 0) == 0
  {
    hide LineObjs, TopObject, TrueTop, Under;
    RepaintedStart(p, MARKED, FLIPPED, 0, 0x0C, 0);
    var q := Repainted(p, MARKED, FLIPPED, 0, 0x0C, 0);
    var s := Fetch.Scene(q.regs.(ly := 0), q.vram, q.found);
    OneObject();
    MarkedRow(s);
    LineObjsCover(q.oam, s);
    BlankUnder(s, WinRow(q.regs, 0), WindowLeft(q.regs), 0);
  }

  // For given registers, every frame is the true picture if and only if the window, where it is shown at
  // all, starts on screen, and objects are off or sixteen rows tall.
  lemma TruePictureExactly(p: Ppu, sizes: seq<nat>)
    requires FrameStart(p) && Sum(sizes) == FRAME_CYCLES
    ensures (WindowFits(p.regs) && (p.regs.lcdc.objOn ==> p.regs.lcdc.tallObjs)) <==>
      forall vram: seq<Byte>, oam: seq<Byte>, bgp: Byte, obp0: Byte, obp1: Byte ::
        |vram| == VRAM_SIZE && |oam| == OAM_SIZE ==> ShowsTruePicture(Repainted(p, vram, oam, bgp, obp0, obp1), sizes)
  {
    hide FrameStart, Batches, PictureAt, TruePictureAt, ShownAt, Cell, WindowFits, BytesShow, BytesShowTruly;
    if !WindowFits(p.regs) {
      NarrowIsNotTrue(p, sizes);
    } else if p.regs.lcdc.objOn && !p.regs.lcdc.tallObjs {
      RepaintedStart(p, MARKED, FLIPPED, 0, 0x0C, 0);
      FlippedDiffers(p);
      var q := Repainted(p, MARKED, FLIPPED, 0, 0x0C, 0);
      FrameShowsPicture(q, sizes);
      assert Cell(Batches(q, sizes).o, 0, 0, 0) != TruePictureAt(q, 0, 0);
    } else {
      forall vram: seq<Byte>, oam: seq<Byte>, bgp: Byte, obp0: Byte, obp1: Byte
        | |vram| == VRAM_SIZE && |oam| == OAM_SIZE
        ensures ShowsTruePicture(Repainted(p, vram, oam, bgp, obp0, obp1), sizes)
      {
        RepaintedStart(p, vram, oam, bgp, obp0, obp1);
        FrameShowsTruePicture(Repainted(p, vram, oam, bgp, obp0, obp1), sizes);
      }
    }
  }

  lemma NarrowIsNotTrue(p: Ppu, sizes: seq<nat>)
    requires FrameStart(p) && Sum(sizes) == FRAME_CYCLES && !WindowFits(p.regs)
    ensures var vram: seq<Byte> := seq(VRAM_SIZE, _ => Stripe(-ShownLeft(p.regs)));
      !ShowsTruePicture(Repainted(p, vram, NO_OBJECTS, 3, p.regs.obp0, p.regs.obp1), sizes)
  {
    hide FrameStart, Batches, PictureAt, TruePictureAt, ShownAt, Cell, BytesShowFrom, Writes, Requests, NextFrame;
    var vram: seq<Byte> := seq(VRAM_SIZE, _ => Stripe(-ShownLeft(p.regs)));
    var q := Filled(p, vram, NO_OBJECTS, 3);
    assert q == Repainted(p, vram, NO_OBJECTS, 3, p.regs.obp0, p.regs.obp1);
    StripeIsClear(p, vram);
    StartIsValid(q);
    FrameByBatches(q, sizes);
    NarrowWindowDiffers(p);
    PictureIsTrue(q, p.regs.wy, 0);
    assert Cell(Batches(q, sizes).o, p.regs.wy, 0, 0) != TruePictureAt(q, p.regs.wy, 0);
  }
}
