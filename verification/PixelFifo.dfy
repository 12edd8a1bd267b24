/** The two pixel queues: background/window pixels and object pixels. */
module PixelFifo {
  import opened Bytes
  import opened Pixels
  import opened Registers

  const INVALID_PIX := 0xff

  // What the queues hold, oldest pixel first.
  datatype Fifo = Fifo(bg: seq<Pixel>, obj: seq<Pixel>, locked: bool, bgEnabled: bool) {

    predicate Valid()
    {
      |bg| <= 16 && |obj| <= 8
    }

    function Popped(r: Regs): Fifo
    {
      if locked then this
      else if bg == [] then this.(obj := Rest(obj))
      else this.(bg := bg[1..], obj := if r.lcdc.objOn then Rest(obj) else obj)
    }

    function Output(r: Regs): int
    {
      if locked || bg == [] then INVALID_PIX
      else Mixed(bg[0], if r.lcdc.objOn && obj != [] then Some(obj[0]) else None, r)
    }

    predicate CanLoadBg()
    {
      |bg| <= 8 && bgEnabled
    }

    function LoadBg(line: TileLine): Fifo
      requires line.Valid()
    {
      if CanLoadBg() then this.(bg := bg + LinePixels(line)) else this
    }

    function LoadMixSprite(line: TileLine): Fifo
      requires line.Valid() && Valid()
    {
      this.(obj := MixedLine(obj, line))
    }

    function Clear(clearSprites: bool): Fifo
    {
      this.(bg := [], obj := if clearSprites then [] else obj)
    }
  }

  const EMPTY := Fifo([], [], false, false)

  function Rest(s: seq<Pixel>): seq<Pixel>
  {
    if s == [] then [] else s[1..]
  }

  function LinePixels(line: TileLine): (s: seq<Pixel>)
    requires line.Valid()
    ensures |s| == 8
  {
    seq(8, i requires 0 <= i < 8 => line.Get(i))
  }

  // The shade a palette register gives to a colour number.
  function ToPalette(value: Shade, palette: Byte): Shade
  {
    if value == 0 then palette % 4
    else if value == 1 then palette / 4 % 4
    else if value == 2 then palette / 16 % 4
    else palette / 64 % 4
  }

  // The background or window pixel, blanked when its layer is switched off.
  predicate LayerOff(pix: Pixel, l: Lcdc)
  {
    (pix.kind == Background && !l.bgOn) || (pix.kind == Window && !l.winOn)
  }

  // One background pixel under an optional object pixel.
  function Mixed(bg: Pixel, obj: Option<Pixel>, r: Regs): Shade
  {
    var off := LayerOff(bg, r.lcdc);
    var under: Shade := if off then 0 else bg.value;
    if obj.Some? && obj.value.value != 0 && (!obj.value.belowBg || under == 0) then
      ToPalette(obj.value.value, if obj.value.kind == Sprite0 then r.obp0 else r.obp1)
    else
      ToPalette(under, if off then 0 else r.bgp)
  }

  // A new sprite line under the object pixels already queued: an opaque pixel stays, a
  // transparent one gives way to an opaque one, and the part beyond the queue is appended.
  function MixedPixel(queued: Pixel, fresher: Pixel): Pixel
  {
    if fresher.value != 0 && queued.value == 0 then fresher else queued
  }

  function MixedLine(obj: seq<Pixel>, line: TileLine): (s: seq<Pixel>)
    requires line.Valid() && |obj| <= 8
    ensures |s| == 8
  {
    seq(8, i requires 0 <= i < 8 => if i < |obj| then MixedPixel(obj[i], line.Get(i)) else line.Get(i))
  }

  // The object queue after the mixing loop has dealt with its first k pixels.
  ghost function MixedPrefix(obj: seq<Pixel>, line: TileLine, k: nat): (s: seq<Pixel>)
    requires line.Valid() && k <= |obj| <= 8
    ensures |s| == |obj|
    ensures k == 0 ==> s == obj
    ensures k == |obj| ==> s == MixedLine(obj, line)[..k]
  {
    MixedLine(obj, line)[..k] + obj[k..]
  }

  lemma MixedPrefixStep(obj: seq<Pixel>, line: TileLine, k: nat)
    requires line.Valid() && k < |obj| <= 8
    ensures MixedPrefix(obj, line, k)[k] == obj[k]
    ensures MixedPrefix(obj, line, k + 1) == MixedPrefix(obj, line, k)[k := MixedPixel(obj[k], line.Get(k))]
  {
  }

  // The slot `i` places after `head` in a ring of 16.
  function Slot(head: nat, i: nat): (slot: nat)
    requires head < 16 && i <= 16
    ensures slot < 16 && slot == (head + i) % 16
  {
    if head + i < 16 then head + i else head + i - 16
  }

  // The `count` slots of the ring from `head` on.
  ghost function Ring(slots: seq<Pixel>, head: nat, count: nat): (s: seq<Pixel>)
    requires |slots| == 16 && head < 16 && count <= 16
    ensures |s| == count
  {
    seq(count, i requires 0 <= i < count => slots[Slot(head, i)])
  }

  lemma RingPop(slots: seq<Pixel>, head: nat, count: nat)
    requires |slots| == 16 && head < 16 && 0 < count <= 16
    ensures Ring(slots, Slot(head, 1), count - 1) == Ring(slots, head, count)[1..]
    ensures Ring(slots, head, count)[0] == slots[head]
    ensures Slot(Slot(head, 1), count - 1) == Slot(head, count)
  {
  }

  lemma RingPush(slots: seq<Pixel>, head: nat, count: nat, p: Pixel)
    requires |slots| == 16 && head < 16 && count < 16
    ensures Ring(slots[Slot(head, count) := p], head, count + 1) == Ring(slots, head, count) + [p]
  {
  }

  lemma RingUpdate(slots: seq<Pixel>, head: nat, count: nat, k: nat, p: Pixel)
    requires |slots| == 16 && head < 16 && k < count <= 16
    ensures Ring(slots[Slot(head, k) := p], head, count) == Ring(slots, head, count)[k := p]
  {
  }

  class PixelFIFO {
    const mRegs: PpuRegisters
    const mBGPixs: array<Pixel>
    const mOBJPixs: array<Pixel>
    var mBGHead: nat
    var mBGTail: nat
    var mBGCount: nat
    var mOBJHead: nat
    var mOBJTail: nat
    var mOBJCount: nat
    var mLocked: bool
    var mBgEnabled: bool

    ghost predicate Valid()
      reads this
    {
      && mBGPixs != mOBJPixs
      && mBGPixs.Length == mOBJPixs.Length == 16
      && mBGHead < 16 && mBGCount <= 16 && mBGTail == Slot(mBGHead, mBGCount)
      && mOBJHead < 16 && mOBJCount <= 8 && mOBJTail == Slot(mOBJHead, mOBJCount)
    }

    ghost function Model(): Fifo
      requires Valid()
      reads this, mBGPixs, mOBJPixs
    {
      Fifo(Ring(mBGPixs[..], mBGHead, mBGCount), Ring(mOBJPixs[..], mOBJHead, mOBJCount), mLocked, mBgEnabled)
    }

    // mBgEnabled is left as it comes, as in the original.
    constructor (registers: PpuRegisters)
      ensures Valid() && mRegs == registers && fresh(mBGPixs) && fresh(mOBJPixs)
      ensures Model() == Fifo([], [], false, Model().bgEnabled)
    {
      mRegs := registers;
      mBGPixs := new Pixel[16](_ => Pixel(0, Background, false));
      mOBJPixs := new Pixel[16](_ => Pixel(0, Background, false));
      mBGHead, mBGTail, mBGCount := 0, 0, 0;
      mOBJHead, mOBJTail, mOBJCount := 0, 0, 0;
      mLocked := false;
    }

    method PopObj() returns (pix: Pixel)
      requires Valid() && mOBJCount > 0
      modifies this`mOBJHead, this`mOBJCount
      ensures Valid()
      ensures pix == old(Model()).obj[0]
      ensures Model() == old(Model()).(obj := old(Model()).obj[1..])
    {
      RingPop(mOBJPixs[..], mOBJHead, mOBJCount);
      pix := mOBJPixs[mOBJHead];
      mOBJHead := (mOBJHead + 1) % 16;
      mOBJCount := mOBJCount - 1;
    }

    method PopBg() returns (pix: Pixel)
      requires Valid() && mBGCount > 0
      modifies this`mBGHead, this`mBGCount
      ensures Valid()
      ensures pix == old(Model()).bg[0]
      ensures Model() == old(Model()).(bg := old(Model()).bg[1..])
    {
      RingPop(mBGPixs[..], mBGHead, mBGCount);
      pix := mBGPixs[mBGHead];
      mBGHead := (mBGHead + 1) % 16;
      mBGCount := mBGCount - 1;
    }

    method Tick() returns (retPix: int)
      requires Valid()
      modifies this
      ensures Valid()
      ensures Model() == old(Model()).Popped(mRegs.Model())
      ensures retPix == old(Model()).Output(mRegs.Model())
    {
      if mLocked {
        return INVALID_PIX;
      }
      if mBGCount > 0 {
        var lcdc := mRegs.LCDC;
        var pix := PopBg();
        var palette := mRegs.BGP;
        if LayerOff(pix, lcdc) {
          pix := pix.(value := 0);
          palette := 0;
        }
        if mOBJCount > 0 && lcdc.objOn {
          var obj := PopObj();
          if obj.value != 0 && (!obj.belowBg || pix.value == 0) {
            pix := obj;
            palette := if obj.kind == Sprite0 then mRegs.OBP0 else mRegs.OBP1;
          }
        }
        retPix := ToPalette(pix.value, palette);
      } else {
        if mOBJCount > 0 {
          var _ := PopObj();
        }
        retPix := INVALID_PIX;
      }
    }

    method LoadBG(line: TileLine) returns (ok: bool)
      requires Valid() && line.Valid()
      modifies this, mBGPixs
      ensures Valid()
      ensures ok == old(Model()).CanLoadBg()
      ensures Model() == old(Model()).LoadBg(line)
    {
      if mBGCount > 8 || !mBgEnabled {
        return false;
      }
      ghost var before := Model();
      for idx := 0 to 8
        invariant Valid() && mBGCount == old(mBGCount) + idx
        invariant Model() == before.(bg := before.bg + LinePixels(line)[..idx])
      {
        RingPush(mBGPixs[..], mBGHead, mBGCount, line.Get(idx));
        ghost var slots := mBGPixs[..][mBGTail := line.Get(idx)];
        mBGPixs[mBGTail] := line.Get(idx);
        assert mBGPixs[..] == slots;
        mBGTail := (mBGTail + 1) % 16;
        mBGCount := mBGCount + 1;
      }
      return true;
    }

    // One slot of the object ring, overwritten.
    method ReplaceObj(ghost k: nat, fifoIdx: nat, pix: Pixel)
      requires Valid() && k < mOBJCount && fifoIdx == Slot(mOBJHead, k)
      modifies mOBJPixs
      ensures Valid() && Model() == old(Model()).(obj := old(Model()).obj[k := pix])
    {
      RingUpdate(mOBJPixs[..], mOBJHead, mOBJCount, k, pix);
      ghost var slots := mOBJPixs[..][fifoIdx := pix];
      mOBJPixs[fifoIdx] := pix;
      assert mOBJPixs[..] == slots;
    }

    method PushObj(pix: Pixel)
      requires Valid() && mOBJCount < 8
      modifies this`mOBJTail, this`mOBJCount, mOBJPixs
      ensures Valid() && mOBJCount == old(mOBJCount) + 1
      ensures Model() == old(Model()).(obj := old(Model()).obj + [pix])
    {
      RingPush(mOBJPixs[..], mOBJHead, mOBJCount, pix);
      ghost var slots := mOBJPixs[..][mOBJTail := pix];
      mOBJPixs[mOBJTail] := pix;
      assert mOBJPixs[..] == slots;
      mOBJTail := (mOBJTail + 1) % 16;
      mOBJCount := mOBJCount + 1;
    }

    // The first loop of loadMixSprite: mix with what is queued.
    method MixQueued(line: TileLine)
      requires Valid() && line.Valid()
      modifies mOBJPixs
      ensures Valid()
      ensures Model() == old(Model()).(obj := MixedLine(old(Model()).obj, line)[..mOBJCount])
    {
      ghost var before := Model();
      var spriteIdx, fifoIdx := 0, mOBJHead;
      while spriteIdx < 8 && spriteIdx < mOBJCount
        invariant Valid() && 0 <= spriteIdx <= mOBJCount && fifoIdx == Slot(mOBJHead, spriteIdx)
        invariant Model() == before.(obj := MixedPrefix(before.obj, line, spriteIdx))
      {
        MixedPrefixStep(before.obj, line, spriteIdx);
        assert mOBJPixs[fifoIdx] == Model().obj[spriteIdx];
        if line.Get(spriteIdx).value != 0 && mOBJPixs[fifoIdx].value == 0 {
          ReplaceObj(spriteIdx, fifoIdx, line.Get(spriteIdx));
        }
        spriteIdx := spriteIdx + 1;
        fifoIdx := (fifoIdx + 1) % 16;
      }
    }

    // The second loop: the rest of the line goes to the back.
    method AppendBeyond(line: TileLine)
      requires Valid() && line.Valid()
      modifies this, mOBJPixs
      ensures Valid()
      ensures Model() == old(Model()).(obj := old(Model()).obj + LinePixels(line)[old(mOBJCount)..])
    {
      var spriteIdx := mOBJCount;
      while spriteIdx < 8
        invariant Valid() && 0 <= spriteIdx <= 8 && mOBJCount == spriteIdx >= old(mOBJCount)
        invariant Model() == old(Model()).(obj := old(Model()).obj + LinePixels(line)[old(mOBJCount)..spriteIdx])
      {
        ghost var appended := LinePixels(line)[old(mOBJCount)..spriteIdx];
        assert LinePixels(line)[old(mOBJCount)..spriteIdx + 1] == appended + [line.Get(spriteIdx)];
        PushObj(line.Get(spriteIdx));
        spriteIdx := spriteIdx + 1;
      }
    }

    method LoadMixSprite(line: TileLine)
      requires Valid() && line.Valid()
      modifies this, mOBJPixs
      ensures Valid()
      ensures Model() == old(Model()).LoadMixSprite(line)
    {
      MixQueued(line);
      AppendBeyond(line);
    }

    method Clear(clearSprites: bool)
      requires Valid()
      modifies this
      ensures Valid() && Model() == old(Model()).Clear(clearSprites)
    {
      mBGHead, mBGTail, mBGCount := 0, 0, 0;
      if clearSprites {
        mOBJHead, mOBJTail, mOBJCount := 0, 0, 0;
      }
    }

    method Lock()
      requires Valid()
      modifies this`mLocked
      ensures Valid() && Model() == old(Model()).(locked := true)
    {
      mLocked := true;
    }

    method Unlock()
      requires Valid()
      modifies this`mLocked
      ensures Valid() && Model() == old(Model()).(locked := false)
    {
      mLocked := false;
    }

    method EnableBG(enabled: bool)
      requires Valid()
      modifies this`mBgEnabled
      ensures Valid() && Model() == old(Model()).(bgEnabled := enabled)
    {
      mBgEnabled := enabled;
    }

    method Reset()
      requires Valid()
      modifies this
      ensures Valid() && Model() == EMPTY
    {
      mBgEnabled := false;
      Clear(true);
      mLocked := false;
    }
  }
}
