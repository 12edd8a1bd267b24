/** For which registers a frame shows the picture, whatever the memories hold. */
module WindowEdge {
  import opened Bytes
  import opened Pixels
  import opened Oam
  import opened Fetch
  import opened Outputs
  import opened PpuCore
  import opened Conservation
  import opened Picture
  import opened Line
  import opened Frame

  // The unit with other memories and another background palette.
  function Filled(p: Ppu, vram: seq<Byte>, oam: seq<Byte>, bgp: Byte): Ppu
  {
    p.(vram := vram, oam := oam, regs := p.regs.(bgp := bgp))
  }

  ghost predicate ShowsPicture(p: Ppu, sizes: seq<nat>)
  {
    p.Valid() && forall y: Row, c: Col, before: Byte :: Cell(Batches(p, sizes).o, y, c, before) == PictureAt(p, y, c)
  }

  lemma FilledStart(p: Ppu, vram: seq<Byte>, oam: seq<Byte>, bgp: Byte)
    requires FrameStart(p) && |vram| == VRAM_SIZE && |oam| == OAM_SIZE
    ensures FrameStart(Filled(p, vram, oam, bgp))
  {
  }

  // ---- The counterexample: no objects, and the same stripe in every byte

  const NO_OBJECTS: seq<Byte> := seq(OAM_SIZE, _ => 0)

  lemma NoObjectsAtAll(ly: Byte, tall: bool)
    ensures LineObjs(NO_OBJECTS, ly, tall) == []
  {
    hide LineObjs;
    LineObjsCorrect(NO_OBJECTS, ly, tall);
    var objs := LineObjs(NO_OBJECTS, ly, tall);
    assert forall idx: nat :: idx < 40 ==> EntryAt(NO_OBJECTS, idx).y == 0;
    HasMember(objs);
  }

  lemma HasMember(s: seq<OamEntry>)
    ensures s == [] || exists e :: e in s
  {
    assert s == [] || s[0] in s;
  }

  lemma StripeIsClear(p: Ppu, vram: seq<Byte>)
    requires FrameStart(p) && |vram| == VRAM_SIZE
    ensures FrameStart(Filled(p, vram, NO_OBJECTS, 3)) && EdgesClear(Filled(p, vram, NO_OBJECTS, 3))
  {
    hide LineObjs;
    FilledStart(p, vram, NO_OBJECTS, 3);
    forall y: Row
      ensures LeftClear(p.regs.(ly := y, bgp := 3), LineObjs(NO_OBJECTS, y, p.regs.lcdc.tallObjs))
    {
      NoObjectsAtAll(y, p.regs.lcdc.tallObjs);
    }
  }

  // A byte whose only bit is that of tile column k.
  function Stripe(k: nat): Byte
    requires k <= 1
  {
    if k == 0 then 0x80 else 0x40
  }

  lemma StripeBits()
    ensures Bit(0x80, 7) == 1 && forall i :: 0 <= i < 7 ==> Bit(0x80, i) == 0
    ensures Bit(0x40, 6) == 1 && forall i :: 0 <= i < 8 && i != 6 ==> Bit(0x40, i) == 0
  {
    forall i | 0 <= i < 8
      ensures ShiftRight(0x80, i) == [0x80, 0x40, 0x20, 0x10, 8, 4, 2, 1][i]
      ensures ShiftRight(0x40, i) == [0x40, 0x20, 0x10, 8, 4, 2, 1, 0][i]
    {
    }
  }

  lemma StripeColumn(k: nat, c: nat)
    requires k <= 1 && c < 8
    ensures PlaneValue(Stripe(k), Stripe(k), c) == if c == k then 3 else 0
  {
    StripeBits();
  }

  // Where the window is shown from its first or second column on, the picture has a later one.
  lemma StripeDiffers(s: Scene, winY: Byte, k: nat, left: int)
    requires s.Valid() && WindowShown(s.r, 0) && s.r.bgp == 3 && k <= 1 && s.vram == seq(VRAM_SIZE, _ => Stripe(k))
    requires LeftFits(s.r, left) && -8 < left <= 0
    ensures LevelAt(s, winY, left, [], 0) == if -left == k then 255 else 0
  {
    hide PlaneValue;
    StripeColumn(k, -left);
  }

  lemma NarrowWindowDiffers(p: Ppu)
    requires FrameStart(p) && !WindowFits(p.regs)
    ensures var q := Filled(p, seq(VRAM_SIZE, _ => Stripe(-ShownLeft(p.regs))), NO_OBJECTS, 3);
      ShownAt(q, p.regs.wy, 0) != PictureAt(q, p.regs.wy, 0)
  {
    hide LevelAt, LineObjs;
    var k, y := -ShownLeft(p.regs), p.regs.wy;
    var q := Filled(p, seq(VRAM_SIZE, _ => Stripe(k)), NO_OBJECTS, 3);
    var s := Fetch.Scene(q.regs.(ly := y), q.vram, q.found);
    NoObjectsAtAll(y, p.regs.lcdc.tallObjs);
    StripeDiffers(s, WinRow(q.regs, y), k, ShownLeft(q.regs));
    StripeDiffers(s, WinRow(q.regs, y), k, WindowLeft(q.regs));
  }

  // ---- The exact condition

  // For given registers, every frame shows the picture, whatever the memories and the palette hold,
  // if and only if the window (where it is shown at all) starts on screen.
  lemma PictureExactly(p: Ppu, sizes: seq<nat>)
    requires FrameStart(p) && Sum(sizes) == FRAME_CYCLES
    ensures WindowFits(p.regs) <==>
      forall vram: seq<Byte>, oam: seq<Byte>, bgp: Byte :: |vram| == VRAM_SIZE && |oam| == OAM_SIZE ==>
        ShowsPicture(Filled(p, vram, oam, bgp), sizes)
  {
    hide FrameStart, Batches, PictureAt, ShownAt, Cell, BytesShow, BytesShowFrom;
    if WindowFits(p.regs) {
      forall vram: seq<Byte>, oam: seq<Byte>, bgp: Byte | |vram| == VRAM_SIZE && |oam| == OAM_SIZE
        ensures ShowsPicture(Filled(p, vram, oam, bgp), sizes)
      {
        FilledStart(p, vram, oam, bgp);
        FrameShowsPicture(Filled(p, vram, oam, bgp), sizes);
      }
    } else {
      var vram: seq<Byte> := seq(VRAM_SIZE, _ => Stripe(-ShownLeft(p.regs)));
      var q := Filled(p, vram, NO_OBJECTS, 3);
      StripeIsClear(p, vram);
      FrameByBatches(q, sizes);
      NarrowWindowDiffers(p);
      assert Cell(Batches(q, sizes).o, p.regs.wy, 0, 0) != PictureAt(q, p.regs.wy, 0);
    }
  }
}
