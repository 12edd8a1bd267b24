/** What leaves the picture unit: cells of the frame buffer and interrupt requests, in order. */
module Outputs {
  import opened Bytes
  import opened Interrupts

  const WIDTH := 160
  const HEIGHT := 144

  type Row = y: int | 0 <= y < HEIGHT
  type Col = x: int | 0 <= x < WIDTH

  datatype Output = Draw(row: Row, col: Col, level: Byte) | Irq(kind: IrqType)

  // What a cell holds after the output.
  function Cell(o: seq<Output>, y: int, x: int, before: Byte): Byte
  {
    if o == [] then before
    else
      var last := o[|o| - 1];
      if last.Draw? && last.row == y && last.col == x then last.level else Cell(o[..|o| - 1], y, x, before)
  }

  // What the interrupt lines are after the output.
  function Requested(o: seq<Output>, l: Lines): Lines
  {
    if o == [] then l
    else
      var rest := Requested(o[..|o| - 1], l);
      if o[|o| - 1].Irq? then rest.Request(o[|o| - 1].kind) else rest
  }

  // How often a cell is written.
  function Writes(o: seq<Output>, y: int, x: int): nat
  {
    if o == [] then 0
    else
      var last := o[|o| - 1];
      Writes(o[..|o| - 1], y, x) + if last.Draw? && last.row == y && last.col == x then 1 else 0
  }

  // How often an interrupt is requested.
  function Requests(o: seq<Output>, kind: IrqType): nat
  {
    if o == [] then 0
    else Requests(o[..|o| - 1], kind) + if o[|o| - 1] == Irq(kind) then 1 else 0
  }

  lemma {:induction false} OutputAppend(a: seq<Output>, b: seq<Output>, y: int, x: int, before: Byte, kind: IrqType)
    ensures Writes(a + b, y, x) == Writes(a, y, x) + Writes(b, y, x)
    ensures Requests(a + b, kind) == Requests(a, kind) + Requests(b, kind)
    ensures Cell(a + b, y, x, before) == Cell(b, y, x, Cell(a, y, x, before))
  {
    if b == [] {
      assert a + b == a;
    } else {
      var front := b[..|b| - 1];
      OutputAppend(a, front, y, x, before, kind);
      assert (a + b)[..|a + b| - 1] == a + front;
      assert (a + b)[|a + b| - 1] == b[|b| - 1];
    }
  }

  lemma OutputRegroup(a: seq<Output>, b: seq<Output>, c: seq<Output>)
    ensures (a + b) + c == a + (b + c)
  {
  }

  // A stretch that draws columns 0, 1, 2, ... of one row.
  ghost predicate DrawsRow(o: seq<Output>, y: Row)
  {
    |o| <= WIDTH && forall i :: 0 <= i < |o| ==> o[i].Draw? && o[i].row == y && o[i].col == i
  }

  lemma {:induction false} RowCells(o: seq<Output>, y: Row, row: int, c: int, before: Byte, kind: IrqType)
    requires DrawsRow(o, y) && 0 <= c < WIDTH
    ensures Writes(o, row, c) == if row == y && c < |o| then 1 else 0
    ensures Cell(o, row, c, before) == if row == y && c < |o| then o[c].level else before
    ensures Requests(o, kind) == 0
  {
    if o != [] {
      RowCells(o[..|o| - 1], y, row, c, before, kind);
    }
  }

  ghost predicate OnlyRequests(o: seq<Output>)
  {
    forall i :: 0 <= i < |o| ==> o[i].Irq?
  }

  lemma {:induction false} RequestsDrawNothing(o: seq<Output>, y: int, x: int, before: Byte)
    requires OnlyRequests(o)
    ensures Writes(o, y, x) == 0 && Cell(o, y, x, before) == before
  {
    if o != [] {
      RequestsDrawNothing(o[..|o| - 1], y, x, before);
    }
  }

  lemma {:induction false} RequestedAppend(a: seq<Output>, b: seq<Output>, l: Lines)
    ensures Requested(a + b, l) == Requested(b, Requested(a, l))
  {
    if b == [] {
      assert a + b == a;
    } else {
      var front := b[..|b| - 1];
      RequestedAppend(a, front, l);
      assert (a + b)[..|a + b| - 1] == a + front;
      assert (a + b)[|a + b| - 1] == b[|b| - 1];
    }
  }

  lemma OneRequest(kind: IrqType, l: Lines)
    ensures Requested([Irq(kind)], l) == l.Request(kind)
  {
    assert Requested([], l) == l;
  }

  // A frame buffer as a value, and that `after` is what output `o` makes of it.
  type FrameImage = seq<seq<Byte>>

  ghost predicate IsFrame(f: FrameImage)
  {
    |f| == HEIGHT && forall y :: 0 <= y < HEIGHT ==> |f[y]| == WIDTH
  }

  ghost predicate Shown(o: seq<Output>, before: FrameImage, after: FrameImage)
    requires IsFrame(before) && IsFrame(after)
  {
    forall y: Row, x: Col :: after[y][x] == Cell(o, y, x, before[y][x])
  }

  lemma ShownAppend(a: seq<Output>, b: seq<Output>, f: FrameImage, g: FrameImage, h: FrameImage)
    requires IsFrame(f) && IsFrame(g) && IsFrame(h) && Shown(a, f, g) && Shown(b, g, h)
    ensures Shown(a + b, f, h)
  {
    forall y: Row, x: Col
      ensures h[y][x] == Cell(a + b, y, x, f[y][x])
    {
      OutputAppend(a, b, y, x, f[y][x], ItVBlank);
    }
  }

  lemma ShownOnlyRequests(o: seq<Output>, f: FrameImage)
    requires IsFrame(f) && OnlyRequests(o)
    ensures Shown(o, f, f)
  {
    forall y: Row, x: Col
      ensures f[y][x] == Cell(o, y, x, f[y][x])
    {
      RequestsDrawNothing(o, y, x, f[y][x]);
    }
  }

  lemma ShownOneDraw(d: Output, f: FrameImage, g: FrameImage)
    requires IsFrame(f) && IsFrame(g) && d.Draw?
    requires forall y: Row, x: Col :: g[y][x] == if y == d.row && x == d.col then d.level else f[y][x]
    ensures Shown([d], f, g)
  {
    forall y: Row, x: Col
      ensures g[y][x] == Cell([d], y, x, f[y][x])
    {
      assert Cell([], y, x, f[y][x]) == f[y][x];
    }
  }

  lemma OneDrawRequestsNothing(d: Output, l: Lines)
    requires d.Draw?
    ensures Requested([d], l) == l
  {
    assert Requested([], l) == l;
  }
}
