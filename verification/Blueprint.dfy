/** The picture, read off the bytes: video memory, object memory and the register bytes as the bus has
    them. Nothing here is shared with the pipeline. */
module Blueprint {
  import opened Bytes

  const POWERS := [1, 2, 4, 8, 16, 32, 64, 128]

  // Bit k of a byte.
  function BitAt(b: Byte, k: nat): (r: int)
    requires k < 8
    ensures 0 <= r <= 1
  {
    b / POWERS[k] % 2
  }

  // The registers the picture depends on.
  datatype Look = Look(lcdc: Byte, scy: Byte, scx: Byte, bgp: Byte, obp0: Byte, obp1: Byte, wy: Byte, wx: Byte)

  predicate Memories(vram: seq<Byte>, oam: seq<Byte>)
  {
    |vram| == 0x2000 && |oam| == 160
  }

  // ---- Tiles

  // Tile n is its own sixteen bytes, two for each row from the top; colour bits come from the left.
  function Colour(vram: seq<Byte>, n: nat, row: nat, column: nat): (v: int)
    requires |vram| == 0x2000 && n < 384 && row < 8 && column < 8
    ensures 0 <= v < 4
  {
    var tile := vram[16 * n..16 * n + 16];
    BitAt(tile[2 * row], 7 - column) + 2 * BitAt(tile[2 * row + 1], 7 - column)
  }

  // The tile a map byte names: one of the first 256, or one of the last 256 with 0x80 first.
  function NamedTile(lcdc: Byte, t: Byte): (n: nat)
    ensures n < 384
  {
    if BitAt(lcdc, 4) == 1 || t >= 0x80 then t else t + 256
  }

  // A pixel of a map of 32 x 32 tiles.
  function MapColour(vram: seq<Byte>, lcdc: Byte, high: bool, mx: nat, my: nat): (v: int)
    requires |vram| == 0x2000 && mx < 256 && my < 256
    ensures 0 <= v < 4
  {
    var names := if high then vram[0x1C00..0x2000] else vram[0x1800..0x1C00];
    Colour(vram, NamedTile(lcdc, names[32 * (my / 8) + mx / 8]), my % 8, mx % 8)
  }

  // ---- The layer below the objects

  predicate WindowCovers(l: Look, y: nat, c: nat)
  {
    BitAt(l.lcdc, 5) == 1 && y >= l.wy && c + 7 >= l.wx
  }

  // `row` and `left` say which row of the window this is and where its left edge lies.
  function LayerColour(l: Look, vram: seq<Byte>, y: nat, c: nat, row: Byte, left: int): (v: int)
    requires |vram| == 0x2000 && (WindowCovers(l, y, c) ==> 0 <= c - left < 256)
    ensures 0 <= v < 4
  {
    if WindowCovers(l, y, c) then MapColour(vram, l.lcdc, BitAt(l.lcdc, 6) == 1, c - left, row)
    else if BitAt(l.lcdc, 0) == 1 then
      MapColour(vram, l.lcdc, BitAt(l.lcdc, 3) == 1, (c + l.scx) % 256, (y + l.scy) % 256)
    else 0
  }

  // The shade a palette byte gives to a colour.
  function ShadeOf(palette: Byte, colour: int): (v: int)
    requires 0 <= colour < 4
    ensures 0 <= v < 4
  {
    palette / [1, 4, 16, 64][colour] % 4
  }

  // A background that is switched off is blank, whatever its palette.
  function LayerShade(l: Look, vram: seq<Byte>, y: nat, c: nat, row: Byte, left: int): (v: int)
    requires |vram| == 0x2000 && (WindowCovers(l, y, c) ==> 0 <= c - left < 256)
    ensures 0 <= v < 4
  {
    if WindowCovers(l, y, c) || BitAt(l.lcdc, 0) == 1 then ShadeOf(l.bgp, LayerColour(l, vram, y, c, row, left)) else 0
  }

  // ---- Objects

  function Height(l: Look): nat
  {
    if BitAt(l.lcdc, 2) == 1 then 16 else 8
  }

  // Object i has its rows on lines y - 16 to y - 16 + height - 1.
  predicate HasLine(l: Look, oam: seq<Byte>, y: nat, i: nat)
    requires |oam| == 160 && i < 40
  {
    oam[4 * i] - 16 <= y < oam[4 * i] - 16 + Height(l)
  }

  // How many objects before the i-th have the line.
  function Earlier(l: Look, oam: seq<Byte>, y: nat, i: nat): (n: nat)
    requires |oam| == 160 && i <= 40
    ensures n <= i
  {
    if i == 0 then 0 else Earlier(l, oam, y, i - 1) + if HasLine(l, oam, y, i - 1) then 1 else 0
  }

  // Only the first ten of a line are shown.
  predicate Listed(l: Look, oam: seq<Byte>, y: nat, i: nat)
    requires |oam| == 160 && i < 40
  {
    HasLine(l, oam, y, i) && Earlier(l, oam, y, i) < 10
  }

  // The colour of object i at (y, c), 0 where it is transparent or has no pixel. Where `beyond` holds, a
  // vertically flipped object of eight rows is taken from the tile after its own.
  function ObjectColour(l: Look, vram: seq<Byte>, oam: seq<Byte>, y: nat, c: nat, i: nat, beyond: bool): (v: int)
    requires Memories(vram, oam) && i < 40 && HasLine(l, oam, y, i)
    ensures 0 <= v < 4
  {
    var x, t, flags := oam[4 * i + 1], oam[4 * i + 2], oam[4 * i + 3];
    var tall, flipped := Height(l) == 16, BitAt(flags, 6) == 1;
    var down: int := y + 16 - oam[4 * i];
    var r := if flipped then Height(l) - 1 - down else down;
    var n := if tall then t - t % 2 + r / 8 else if beyond && flipped then t + 1 else t;
    if x - 8 <= c < x then
      var k := c - (x - 8);
      Colour(vram, n, r % 8, if BitAt(flags, 5) == 1 then 7 - k else k)
    else 0
  }

  predicate Opaque(l: Look, vram: seq<Byte>, oam: seq<Byte>, y: nat, c: nat, i: nat, beyond: bool)
    requires Memories(vram, oam) && i < 40
  {
    BitAt(l.lcdc, 1) == 1 && Listed(l, oam, y, i) && ObjectColour(l, vram, oam, y, c, i, beyond) != 0
  }

  // Smaller x first, then the earlier one.
  predicate InFront(oam: seq<Byte>, i: nat, j: nat)
    requires |oam| == 160 && i < 40 && j < 40
  {
    oam[4 * i + 1] < oam[4 * j + 1] || (oam[4 * i + 1] == oam[4 * j + 1] && i < j)
  }

  ghost predicate Top(l: Look, vram: seq<Byte>, oam: seq<Byte>, y: nat, c: nat, i: nat, beyond: bool)
    requires Memories(vram, oam) && i < 40
  {
    && Opaque(l, vram, oam, y, c, i, beyond)
    && forall j: nat :: j < 40 && j != i && Opaque(l, vram, oam, y, c, j, beyond) ==> InFront(oam, i, j)
  }

  // ---- The pixel

  const GREYS := [255, 169, 84, 0]

  // What the top object shows: its own shade, unless it goes below an opaque pixel of the layer.
  function TopShade(l: Look, vram: seq<Byte>, oam: seq<Byte>, y: nat, c: nat, row: Byte, left: int, i: nat,
                    beyond: bool): (v: int)
    requires Memories(vram, oam) && i < 40 && HasLine(l, oam, y, i)
    requires WindowCovers(l, y, c) ==> 0 <= c - left < 256
    ensures 0 <= v < 4
  {
    if BitAt(oam[4 * i + 3], 7) == 1 && LayerColour(l, vram, y, c, row, left) != 0 then
      LayerShade(l, vram, y, c, row, left)
    else
      ShadeOf(if BitAt(oam[4 * i + 3], 4) == 1 then l.obp1 else l.obp0, ObjectColour(l, vram, oam, y, c, i, beyond))
  }

  // `level` is the grey level at (y, c).
  ghost predicate Describes(level: int, l: Look, vram: seq<Byte>, oam: seq<Byte>, y: nat, c: nat, row: Byte, left: int,
                        beyond: bool)
    requires Memories(vram, oam)
    requires WindowCovers(l, y, c) ==> 0 <= c - left < 256
  {
    && (forall i: nat :: i < 40 && Top(l, vram, oam, y, c, i, beyond) ==>
          level == GREYS[TopShade(l, vram, oam, y, c, row, left, i, beyond)])
    && ((forall i: nat :: i < 40 ==> !Top(l, vram, oam, y, c, i, beyond)) ==>
          level == GREYS[LayerShade(l, vram, y, c, row, left)])
  }

  // There is one such level.
  lemma DescribesOne(a: int, b: int, l: Look, vram: seq<Byte>, oam: seq<Byte>, y: nat, c: nat, row: Byte, left: int,
                 beyond: bool)
    requires Memories(vram, oam) && (WindowCovers(l, y, c) ==> 0 <= c - left < 256)
    requires Describes(a, l, vram, oam, y, c, row, left, beyond) && Describes(b, l, vram, oam, y, c, row, left, beyond)
    ensures a == b
  {
    hide TopShade, LayerShade, ObjectColour, InFront, Earlier;
    if i: nat :| i < 40 && Top(l, vram, oam, y, c, i, beyond) {
      assert a == GREYS[TopShade(l, vram, oam, y, c, row, left, i, beyond)];
    }
  }
}
