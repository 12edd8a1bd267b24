/** The fetcher: two coupled step machines, one for background or window tiles, one for an object. */
module Fetch {
  import opened Bytes
  import opened Pixels
  import opened Registers
  import opened PixelFifo
  import opened Oam

  const VRAM_SIZE := 0x2000

  // The steps of a fetch, compared and advanced as numbers. Every read takes two ticks.
  type Step = s: int | 0 <= s <= 8

  const READ_NUM0: Step := 0
  const READ_NUM1: Step := 1
  const READ_HIGH0: Step := 2
  const READ_HIGH1: Step := 3
  const READ_LOW0: Step := 4
  const READ_LOW1: Step := 5
  const WRITE_LINE0: Step := 6
  const WRITE_LINE1: Step := 7
  const IDLE: Step := 8

  datatype FetchMode = FmBackground | FmWindow

  // `sprite` is the index, in the list of found objects, that the original keeps as a pointer.
  datatype FetchState = FetchState(step: Step, spriteStep: Step, mode: FetchMode, tileCnt: Byte,
                                   tileNum: Byte, data0: Byte, line: TileLine, winY: Byte,
                                   sprite: Option<nat>, spriteTile: Byte, spriteData0: Byte) {

    predicate Valid()
    {
      && line.Valid()
      && (sprite.Some? <==> spriteStep != IDLE)
      && (sprite.Some? ==> sprite.value < MAX_NUM_OBJS)
    }

    function Reset(): FetchState
    {
      this.(step := READ_NUM0, spriteStep := IDLE, mode := FmBackground, sprite := None, tileCnt := 0)
    }

    function StartWindow(y: Byte): FetchState
    {
      this.(step := if mode != FmWindow then READ_NUM0 else step, mode := FmWindow, winY := y, tileCnt := 0)
    }

    function StartSprite(k: nat): FetchState
    {
      this.(sprite := Some(k), spriteStep := READ_NUM0)
    }
  }

  // What the fetcher reads: registers, video memory, and the objects found for the line.
  datatype Scene = Scene(r: Regs, vram: seq<Byte>, found: seq<OamEntry>) {
    predicate Valid()
    {
      r.OffsetsAgree() && |vram| == VRAM_SIZE && |found| == MAX_NUM_OBJS
    }
  }

  datatype Pipe = Pipe(f: FetchState, q: Fifo) {
    predicate Valid()
    {
      f.Valid() && q.Valid()
    }
  }

  function Next(step: Step): Step
  {
    if step < WRITE_LINE1 then step + 1 else step
  }

  // The row of the tile map's pixel plane being fetched.
  function FetchRow(mode: FetchMode, winY: Byte, r: Regs): Byte
  {
    if mode == FmBackground then (r.ly + r.scy) % 0x100 else winY
  }

  // Where the number of the tile `count` tiles into the line is kept.
  function MapAddr(mode: FetchMode, winY: Byte, count: nat, r: Regs): (a: nat)
    requires r.OffsetsAgree()
    ensures a < VRAM_SIZE
  {
    (if mode == FmBackground then r.bgMap else r.winMap)
    + FetchRow(mode, winY, r) / 8 * 32
    + (count + (if mode == FmBackground then r.scx / 8 else 0)) % 32
  }

  // Where a bit plane of one row of a background or window tile is kept.
  function TileAddr(tileNum: Byte, row: Byte, plane: nat, r: Regs): (a: nat)
    requires r.OffsetsAgree() && plane < 2
    ensures a < VRAM_SIZE
  {
    r.tileData + (if r.lcdc.data8000 then tileNum else Signed(tileNum)) * 16 + row % 8 * 2 + plane
  }

  // The row of an object's tile shown on the current line, as a uint8_t.
  function ObjRow(e: OamEntry, ly: Byte): Byte
  {
    if e.yFlip then (e.y - ly - 1) % 0x100 else (16 + ly - e.y) % 0x100
  }

  function ObjAddr(tile: Byte, row: Byte, plane: nat, tall: bool): (a: nat)
    requires plane < 2
    ensures a < VRAM_SIZE
  {
    (if tall then tile - tile % 2 else tile) * 16 + row * 2 + plane
  }

  function LineKind(mode: FetchMode): PixelType
  {
    if mode == FmBackground then Background else Window
  }

  function LineWritten(p: Pipe): (p': Pipe)
    requires p.Valid()
  {
    if p.q.bg == [] && p.q.CanLoadBg() then
      Pipe(p.f.(step := if p.f.spriteStep == IDLE then READ_NUM0 else IDLE), p.q.LoadBg(p.f.line))
    else
      p.(f := p.f.(step := Next(p.f.step)))
  }

  // One tick of the background machine.
  function BackgroundTicked(p: Pipe, s: Scene): (p': Pipe)
    requires p.Valid() && s.Valid()
    ensures p'.Valid()
  {
    var f, r := p.f, s.r;
    if f.step == READ_NUM1 then
      p.(f := f.(tileNum := s.vram[MapAddr(f.mode, f.winY, f.tileCnt, r)], step := READ_HIGH0))
    else if f.step == READ_HIGH1 then
      p.(f := f.(data0 := s.vram[TileAddr(f.tileNum, FetchRow(f.mode, f.winY, r), 0, r)], step := READ_LOW0))
    else if f.step == READ_LOW1 then
      var data1 := s.vram[TileAddr(f.tileNum, FetchRow(f.mode, f.winY, r), 1, r)];
      p.(f := f.(line := DecodedLine(f.data0, data1, LineKind(f.mode), false, false), step := WRITE_LINE0))
    else if f.step == WRITE_LINE0 then
      LineWritten(p.(f := f.(tileCnt := (f.tileCnt + 1) % 0x100)))
    else if f.step == WRITE_LINE1 then
      LineWritten(p)
    else if f.step == IDLE then
      p
    else
      p.(f := f.(step := f.step + 1))
  }

  // The decoded row of an object, given the two bit planes.
  function ObjLine(e: OamEntry, data0: Byte, data1: Byte): (line: TileLine)
    ensures line.Valid()
  {
    DecodedLine(data0, data1, if e.OBP1 then Sprite1 else Sprite0, e.belowBG, e.xFlip)
  }

  // The object line is mixed in, the pixels may move again, and an idle tile fetch restarts.
  function ObjectCompleted(p: Pipe, line: TileLine): (p': Pipe)
    requires p.Valid() && line.Valid()
    ensures p'.Valid()
  {
    Pipe(p.f.(step := if p.f.step == IDLE then READ_NUM0 else p.f.step, spriteStep := IDLE, sprite := None),
         p.q.LoadMixSprite(line).(locked := false))
  }

  // One tick of the object machine.
  function ObjectTicked(p: Pipe, s: Scene): (p': Pipe)
    requires p.Valid() && s.Valid() && p.f.sprite.Some?
    ensures p'.Valid()
  {
    var f, tall := p.f, s.r.lcdc.tallObjs;
    var e := s.found[f.sprite.value];
    if f.spriteStep == READ_NUM1 then
      p.(f := f.(spriteTile := e.tile, spriteStep := READ_HIGH0))
    else if f.spriteStep == READ_HIGH1 then
      p.(f := f.(spriteData0 := s.vram[ObjAddr(f.spriteTile, ObjRow(e, s.r.ly), 0, tall)], spriteStep := READ_LOW0))
    else if f.spriteStep == READ_LOW1 then
      var data1 := s.vram[ObjAddr(f.spriteTile, ObjRow(e, s.r.ly), 1, tall)];
      ObjectCompleted(p, ObjLine(e, f.spriteData0, data1))
    else if f.spriteStep < READ_LOW1 then
      p.(f := f.(spriteStep := f.spriteStep + 1))
    else
      p
  }

  // An object fetch only runs once the tile fetch has got far enough.
  function Ticked(p: Pipe, s: Scene): (p': Pipe)
    requires p.Valid() && s.Valid()
    ensures p'.Valid()
  {
    var p1 := BackgroundTicked(p, s);
    if p1.f.spriteStep != IDLE && p1.f.step >= READ_LOW1 then ObjectTicked(p1, s) else p1
  }

  class Fetcher {
    const mFIFO: PixelFIFO
    const mRegs: PpuRegisters
    const mVRAM: array<Byte>
    const mFoundObjs: array<OamEntry>
    var mTileCnt: Byte
    var mTileNum: Byte
    var mTileData0: Byte
    var mSpriteTileNum: Byte
    var mSpriteTileData0: Byte
    var mWinY: Byte
    var mState: Step
    var mSpriteState: Step
    var mMode: FetchMode
    var mLine: TileLine
    var mSprite: Option<nat>

    ghost function State(): FetchState
      reads this
    {
      FetchState(mState, mSpriteState, mMode, mTileCnt, mTileNum, mTileData0, mLine, mWinY,
                 mSprite, mSpriteTileNum, mSpriteTileData0)
    }

    ghost predicate Valid()
      reads this, mFIFO
    {
      && mFIFO.mRegs == mRegs && mFIFO.Valid()
      && mVRAM.Length == VRAM_SIZE && mFoundObjs.Length == MAX_NUM_OBJS
      && State().Valid()
    }

    ghost function Model(): (p: Pipe)
      requires Valid()
      reads this, mFIFO, mFIFO.mBGPixs, mFIFO.mOBJPixs
      ensures p.Valid()
    {
      Pipe(State(), mFIFO.Model())
    }

    ghost function Seen(): Scene
      reads mRegs, mVRAM, mFoundObjs
    {
      Scene(mRegs.Model(), mVRAM[..], mFoundObjs[..])
    }

    constructor (fifo: PixelFIFO, vram: array<Byte>, found: array<OamEntry>, registers: PpuRegisters)
      requires fifo.Valid() && fifo.mRegs == registers
      requires vram.Length == VRAM_SIZE && found.Length == MAX_NUM_OBJS
      ensures mFIFO == fifo && mRegs == registers && mVRAM == vram && mFoundObjs == found
      ensures Valid() && State() == State().Reset()
    {
      mFIFO, mRegs, mVRAM, mFoundObjs := fifo, registers, vram, found;
      mLine := TileLine(seq(8, _ => Pixel(0, Background, false)), false);
      mState, mSpriteState, mMode, mSprite, mTileCnt := READ_NUM0, IDLE, FmBackground, None, 0;
    }

    method Reset()
      requires Valid()
      modifies this
      ensures Valid() && State() == old(State()).Reset()
    {
      mState, mSpriteState, mMode, mSprite, mTileCnt := READ_NUM0, IDLE, FmBackground, None, 0;
    }

    method SetMode(mode: FetchMode, winY: Byte)
      requires Valid() && mode == FmWindow
      modifies this
      ensures Valid() && State() == old(State()).StartWindow(winY)
    {
      if mMode != mode {
        mState := READ_NUM0;
      }
      mMode, mWinY, mTileCnt := mode, winY, 0;
    }

    method StartSprite(k: nat)
      requires Valid() && k < MAX_NUM_OBJS
      modifies this
      ensures Valid() && State() == old(State()).StartSprite(k)
    {
      mSprite, mSpriteState := Some(k), READ_NUM0;
    }

    method TryWriteLine()
      requires Valid()
      modifies this, mFIFO, mFIFO.mBGPixs
      ensures Valid() && Model() == LineWritten(old(Model()))
    {
      if mFIFO.mBGCount == 0 {
        var ok := mFIFO.LoadBG(mLine);
        if ok {
          mState := if mSpriteState == IDLE then READ_NUM0 else IDLE;
          return;
        }
      }
      mState := Next(mState);
    }

    method ReadTileNum() returns (num: Byte)
      requires Valid() && Seen().Valid()
      ensures num == mVRAM[..][MapAddr(mMode, mWinY, mTileCnt, mRegs.Model())]
    {
      var background := mMode == FmBackground;
      var y := if background then (mRegs.LY + mRegs.SCY) % 0x100 else mWinY;
      var x := (mTileCnt + (if background then mRegs.SCX / 8 else 0)) % 32;
      ghost var a := MapAddr(mMode, mWinY, mTileCnt, mRegs.Model());
      num := mVRAM[(if background then mRegs.bgMapOffset else mRegs.winMapOffset) + y / 8 * 32 + x];
    }

    method ReadTileData(plane: nat) returns (data: Byte)
      requires Valid() && Seen().Valid() && plane < 2
      ensures data == mVRAM[..][TileAddr(mTileNum, FetchRow(mMode, mWinY, mRegs.Model()), plane, mRegs.Model())]
    {
      var y := if mMode == FmBackground then (mRegs.LY + mRegs.SCY) % 0x100 else mWinY;
      var tile := if mRegs.LCDC.data8000 then mTileNum else Signed(mTileNum);
      ghost var a := TileAddr(mTileNum, y, plane, mRegs.Model());
      data := mVRAM[mRegs.tileDataOffset + tile * 16 + y % 8 * 2 + plane];
    }

    method TickBackground()
      requires Valid() && Seen().Valid()
      modifies this, mFIFO, mFIFO.mBGPixs
      ensures Valid() && Model() == BackgroundTicked(old(Model()), old(Seen()))
    {
      hide MapAddr, TileAddr, FetchRow, LineWritten, DecodedLine, Ring;
      if mState == READ_NUM0 || mState == READ_HIGH0 || mState == READ_LOW0 {
        mState := Next(mState);
      } else if mState == READ_NUM1 {
        mTileNum := ReadTileNum();
        mState := Next(mState);
      } else if mState == READ_HIGH1 {
        mTileData0 := ReadTileData(0);
        mState := Next(mState);
      } else if mState == READ_LOW1 {
        var data1 := ReadTileData(1);
        mLine := LoadLine(mTileData0, data1, if mMode == FmBackground then Background else Window, false, false);
        mState := Next(mState);
      } else if mState == WRITE_LINE0 {
        mTileCnt := (mTileCnt + 1) % 0x100;
        TryWriteLine();
      } else if mState == WRITE_LINE1 {
        TryWriteLine();
      }
    }

    // The end of an object fetch: mix the line in and let the pixels move again.
    method CompleteSprite(line: TileLine)
      requires Valid() && line.Valid()
      modifies this, mFIFO, mFIFO.mOBJPixs
      ensures Valid()
      ensures Model() == ObjectCompleted(old(Model()), line)
    {
      mFIFO.LoadMixSprite(line);
      if mState == IDLE {
        mState := READ_NUM0;
      }
      mSpriteState, mSprite := IDLE, None;
      mFIFO.Unlock();
    }

    method ReadObjData(plane: nat) returns (data: Byte)
      requires Valid() && Seen().Valid() && mSprite.Some? && plane < 2
      ensures data == mVRAM[..][ObjAddr(mSpriteTileNum, ObjRow(mFoundObjs[mSprite.value], mRegs.LY), plane,
                                        mRegs.LCDC.tallObjs)]
    {
      var sprite := mFoundObjs[mSprite.value];
      var y := if sprite.yFlip then (sprite.y - mRegs.LY - 1) % 0x100 else (16 + mRegs.LY - sprite.y) % 0x100;
      var tile := if mRegs.LCDC.tallObjs then mSpriteTileNum - mSpriteTileNum % 2 else mSpriteTileNum;
      data := mVRAM[tile * 16 + y * 2 + plane];
    }

    method TickObject()
      requires Valid() && Seen().Valid() && mSprite.Some?
      modifies this, mFIFO, mFIFO.mOBJPixs
      ensures Valid() && Model() == ObjectTicked(old(Model()), old(Seen()))
    {
      hide ObjAddr, ObjRow, DecodedLine, Ring, MixedLine, ObjectCompleted;
      var sprite := mFoundObjs[mSprite.value];
      if mSpriteState == READ_NUM0 || mSpriteState == READ_HIGH0 || mSpriteState == READ_LOW0 {
        mSpriteState := Next(mSpriteState);
      } else if mSpriteState == READ_NUM1 {
        mSpriteTileNum := sprite.tile;
        mSpriteState := Next(mSpriteState);
      } else if mSpriteState == READ_HIGH1 {
        mSpriteTileData0 := ReadObjData(0);
        mSpriteState := Next(mSpriteState);
      } else if mSpriteState == READ_LOW1 {
        var data1 := ReadObjData(1);
        var line := LoadLine(mSpriteTileData0, data1, if sprite.OBP1 then Sprite1 else Sprite0,
                             sprite.belowBG, sprite.xFlip);
        CompleteSprite(line);
      }
    }

    method Tick()
      requires Valid() && Seen().Valid()
      modifies this, mFIFO, mFIFO.mBGPixs, mFIFO.mOBJPixs
      ensures Valid() && Model() == Ticked(old(Model()), old(Seen()))
    {
      TickBackground();
      if mSpriteState != IDLE && mState >= READ_LOW1 {
        TickObject();
      }
    }
  }
}
