/** Pixels, and a line of eight of them decoded from two bit planes. */
module Pixels {
  import opened Bytes

  datatype PixelType = Background | Window | Sprite0 | Sprite1

  // A colour number, or a shade: two bits.
  type Shade = x: int | 0 <= x < 4

  // The only pixel flag the program defines is PIXEL_FLAGS_SPRITE_BELOW_BG.
  datatype Pixel = Pixel(value: Shade, kind: PixelType, belowBg: bool)

  datatype TileLine = TileLine(pixels: seq<Pixel>, flipped: bool) {

    predicate Valid()
    {
      |pixels| == 8
    }

    function Get(idx: nat): Pixel
      requires Valid()
    {
      if idx < 8 then pixels[if flipped then 7 - idx else idx] else Pixel(0, Background, false)
    }
  }

  // The colour number of the pixel `idx` places from the left.
  function PlaneValue(lo: Byte, hi: Byte, idx: nat): (v: Shade)
    requires idx < 8
  {
    2 * Bit(hi, 7 - idx) + Bit(lo, 7 - idx)
  }

  function DecodedLine(lo: Byte, hi: Byte, kind: PixelType, below: bool, flipped: bool): (line: TileLine)
    ensures line.Valid()
  {
    TileLine(seq(8, i requires 0 <= i < 8 => Pixel(PlaneValue(lo, hi, i), kind, below)), flipped)
  }

  // The shifting loop takes the low bit of each plane, starting with the rightmost pixel.
  method LoadLine(lo0: Byte, hi0: Byte, kind: PixelType, below: bool, isFlipped: bool)
    returns (line: TileLine)
    ensures line == DecodedLine(lo0, hi0, kind, below, isFlipped)
  {
    var lo: int, hi: int := lo0, 2 * hi0;
    var pixels := seq(8, _ => Pixel(0, Background, false));
    var pixIdx := 7;
    while pixIdx >= 0
      invariant -1 <= pixIdx <= 7 && |pixels| == 8
      invariant lo == ShiftRight(lo0, 7 - pixIdx) && hi / 2 == ShiftRight(hi0, 7 - pixIdx) && lo >= 0 && hi >= 0
      invariant forall i :: pixIdx < i < 8 ==> pixels[i] == Pixel(PlaneValue(lo0, hi0, i), kind, below)
    {
      var pix := hi / 2 % 2 * 2 + lo % 2;
      pixels := pixels[pixIdx := Pixel(pix, kind, below)];
      hi := hi / 2;
      lo := lo / 2;
      pixIdx := pixIdx - 1;
    }
    line := TileLine(pixels, isFlipped);
    assert line.pixels == DecodedLine(lo0, hi0, kind, below, isFlipped).pixels;
  }
}
