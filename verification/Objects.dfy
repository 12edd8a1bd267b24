/** The object side of a line: every object is fetched at its own column, and the queue holds the winners. */
module Objects {
  import opened Bytes
  import opened Pixels
  import opened Registers
  import opened PixelFifo
  import opened Oam
  import opened Fetch
  import opened Outputs
  import opened PpuCore
  import opened Mode3
  import opened Picture

  ghost predicate OrderedByX(objs: seq<OamEntry>)
  {
    forall a, b :: 0 <= a < b < |objs| ==> objs[a].x <= objs[b].x
  }

  // A queued pixel against the picture: the winning object's pixel, or transparent.
  ghost predicate Shows(px: Pixel, top: Option<Pixel>)
  {
    if top.Some? then px == top.value else px.value == 0
  }

  // The queue, read from column x on, holds the winners among the objects mixed in so far, and
  // none of those reaches beyond it.
  ghost predicate Queued(obj: seq<Pixel>, objs: seq<OamEntry>, s: Scene, x: int)
    requires s.Valid()
  {
    && |obj| <= 8
    && (forall k :: 0 <= k < |objs| ==> objs[k].x <= x + |obj|)
    && (forall i :: 0 <= i < |obj| ==> Shows(obj[i], TopObject(objs, s, x + i)))
  }

  lemma {:induction false} TopObjectBeyond(objs: seq<OamEntry>, s: Scene, c: int)
    requires s.Valid() && forall k :: 0 <= k < |objs| ==> objs[k].x <= c
    ensures TopObject(objs, s, c) == None
  {
    TopObjectIsFirst(objs, s, c);
  }

  // Popping moves on by one column.
  lemma QueuedPop(obj: seq<Pixel>, objs: seq<OamEntry>, s: Scene, x: int)
    requires s.Valid() && Queued(obj, objs, s, x)
    ensures Queued(Rest(obj), objs, s, x + 1)
  {
    hide TopObject;
    forall i | 0 <= i < |Rest(obj)|
      ensures Shows(Rest(obj)[i], TopObject(objs, s, x + 1 + i))
    {
      assert Rest(obj)[i] == obj[i + 1] && x + 1 + i == x + (i + 1);
    }
  }

  // Mixing in the next object of the list, at its own column, keeps the winners.
  lemma QueuedMix(obj: seq<Pixel>, objs: seq<OamEntry>, s: Scene, x: int, e: OamEntry)
    requires s.Valid() && Queued(obj, objs, s, x) && e.x == x + 8
    ensures Queued(MixedLine(obj, ObjectRow(e, s)), objs + [e], s, x)
  {
    var line, more := ObjectRow(e, s), objs + [e];
    assert more[..|more| - 1] == objs;
    forall i | 0 <= i < 8
      ensures Shows(MixedLine(obj, line)[i], TopObject(more, s, x + i))
    {
      if i >= |obj| {
        TopObjectBeyond(objs, s, x + i);
      }
      assert ObjectAt(e, s, x + i) == if line.Get(i).value != 0 then Some(line.Get(i)) else None;
    }
  }

  // Objects still to come start beyond this column and do not show there.
  lemma {:induction false} TopObjectPrefix(objs: seq<OamEntry>, s: Scene, c: int, n: nat)
    requires s.Valid() && n <= |objs| && forall k :: n <= k < |objs| ==> objs[k].x > c + 8
    ensures TopObject(objs, s, c) == TopObject(objs[..n], s, c)
  {
    if n < |objs| {
      var fewer := objs[..|objs| - 1];
      TopObjectPrefix(fewer, s, c, n);
      assert fewer[..n] == objs[..n];
    } else {
      assert objs[..n] == objs;
    }
  }

  // ---- The object machine over a line

  ghost function Loaded(p: Ppu): int
  {
    p.curObj - (if p.pipe.f.sprite.Some? then 1 else 0)
  }

  // The pending object is the last one started, is due at this column, and is being read correctly.
  ghost predicate PendingObject(p: Ppu)
    requires p.Valid()
  {
    p.pipe.f.sprite.Some? ==>
      var f, s, k := p.pipe.f, p.Scene(), p.curObj - 1;
      && k >= 0 && f.sprite.value == k && p.found[k].x == p.x + 8
      && ReadSoFar(f, p.found[k], s)
  }

  ghost predicate ReadSoFar(f: FetchState, e: OamEntry, s: Scene)
    requires s.Valid()
  {
    && (f.spriteStep >= READ_HIGH0 ==> f.spriteTile == e.tile)
    && (f.spriteStep >= READ_LOW0 ==>
         f.spriteData0 == s.vram[ObjAddr(e.tile, ObjRow(e, s.r.ly), 0, s.r.lcdc.tallObjs)])
  }

  // The objects already started lie at or before this column, the others at or beyond it.
  ghost predicate Progress(p: Ppu)
    requires p.Valid()
  {
    && OrderedByX(p.found[..p.numObjs])
    && (p.regs.lcdc.objOn ==>
         && (forall k :: 0 <= k < p.curObj ==> p.found[k].x <= p.x + 8)
         && (forall k :: p.curObj <= k < p.numObjs ==> p.found[k].x >= p.x + 8))
    && (!p.regs.lcdc.objOn ==> p.curObj == 0 && p.pipe.q.obj == [])
  }

  ghost predicate ObjSide(p: Ppu)
    requires p.Valid()
  {
    && Progress(p) && PendingObject(p)
    && 0 <= Loaded(p) && Queued(p.pipe.q.obj, p.found[..Loaded(p)], p.Scene(), p.x)
  }

  lemma ObjectReads(p: Pipe, s: Scene)
    requires p.Valid() && s.Valid() && Linked(p) && p.f.sprite.Some?
    requires ReadSoFar(p.f, s.found[p.f.sprite.value], s)
    ensures var p', e := ObjectTicked(p, s), s.found[p.f.sprite.value];
      if p.f.spriteStep == READ_LOW1
      then p'.f.sprite == None && p'.q.obj == MixedLine(p.q.obj, ObjectRow(e, s))
      else p'.f.sprite == p.f.sprite && p'.q.obj == p.q.obj && ReadSoFar(p'.f, e, s)
  {
    hide ObjAddr, ObjRow, DecodedLine, MixedLine;
  }

  lemma BackgroundKeepsObject(p: Pipe, s: Scene)
    requires p.Valid() && s.Valid()
    ensures var p' := BackgroundTicked(p, s);
      && p'.q.obj == p.q.obj && p'.f.sprite == p.f.sprite && p'.f.spriteStep == p.f.spriteStep
      && p'.f.spriteTile == p.f.spriteTile && p'.f.spriteData0 == p.f.spriteData0
  {
    hide MapAddr, TileAddr, FetchRow, DecodedLine;
  }

  lemma ObjFetched(p: Ppu)
    requires Inv(p) && ObjSide(p)
    ensures ObjSide(FetchTicked(p))
  {
    hide ReadSoFar, Queued, MixedLine, ObjectRow, TopObject;
    var s := p.Scene();
    var p1 := BackgroundTicked(p.pipe, s);
    BackgroundTick(p.pipe, s);
    BackgroundKeepsObject(p.pipe, s);
    if p1.f.sprite.Some? {
      var k := p.curObj - 1;
      assert ReadSoFar(p1.f, p.found[k], s) by { SameReads(p.pipe.f, p1.f, p.found[k], s); }
      if p1.f.step >= READ_LOW1 {
        ObjectReads(p1, s);
        QueuedMix(p.pipe.q.obj, p.found[..k], s, p.x, p.found[k]);
        assert p.found[..k] + [p.found[k]] == p.found[..k + 1];
      }
    }
  }

  lemma SameReads(f: FetchState, g: FetchState, e: OamEntry, s: Scene)
    requires s.Valid() && ReadSoFar(f, e, s)
    requires g.spriteStep == f.spriteStep && g.spriteTile == f.spriteTile && g.spriteData0 == f.spriteData0
    ensures ReadSoFar(g, e, s)
  {
  }

  lemma ObjStarted(p: Ppu)
    requires Inv(p) && ObjSide(p) && p.pipe.f.sprite.None? && ObjectDue(p)
    ensures ObjSide(StartObject(p))
  {
    hide Queued;
    var p' := StartObject(p);
    assert p'.found[..Loaded(p')] == p.found[..Loaded(p)];
  }

  // A column is only passed when no object is due there.
  lemma ObjShifted(p: Ppu)
    requires Inv(p) && ObjSide(p) && p.Mode() == DataXfer && p.x + 1 < WIDTH && !Stalled(p) && !ObjectDue(p)
    ensures PixelTaken(p).Valid() && ObjSide(PixelTaken(p))
  {
    hide Queued, TopObject;
    var p' := PixelTaken(p);
    QueuedPop(p.pipe.q.obj, p.found[..Loaded(p)], p.Scene(), p.x);
    assert p'.pipe.q.obj == Rest(p.pipe.q.obj);
    if p.regs.lcdc.objOn {
      NotYet(p);
    }
  }

  lemma NotYet(p: Ppu)
    requires p.Valid() && Progress(p) && !ObjectDue(p) && p.regs.lcdc.objOn
    ensures forall k :: p.curObj <= k < p.numObjs ==> p.found[k].x > p.x + 8
  {
    var objs := p.found[..p.numObjs];
    forall k | p.curObj <= k < p.numObjs
      ensures p.found[k].x > p.x + 8
    {
      assert objs[k] == p.found[k] && objs[p.curObj] == p.found[p.curObj];
    }
  }

  // The object pixel at the head of the queue is the one the picture has at this column.
  lemma ObjHead(p: Ppu, under: Pixel)
    requires Inv(p) && ObjSide(p) && !Stalled(p) && !ObjectDue(p)
    ensures var queued := if p.regs.lcdc.objOn && p.pipe.q.obj != [] then Some(p.pipe.q.obj[0]) else None;
      var top := if p.regs.lcdc.objOn then TopObject(p.found[..p.numObjs], p.Scene(), p.x) else None;
      Mixed(under, queued, p.regs) == Mixed(under, top, p.regs)
  {
    hide TopObject, LayerOff, ToPalette;
    if p.regs.lcdc.objOn {
      var s, objs := p.Scene(), p.found[..p.numObjs];
      NotYet(p);
      TopObjectPrefix(objs, s, p.x, p.curObj);
      assert objs[..p.curObj] == p.found[..p.curObj];
      if p.pipe.q.obj == [] {
        TopObjectBeyond(p.found[..p.curObj], s, p.x);
      } else {
        assert Shows(p.pipe.q.obj[0], TopObject(p.found[..p.curObj], s, p.x + 0));
        TopIsOpaque(p.found[..p.curObj], s, p.x);
      }
    }
  }

  lemma TopIsOpaque(objs: seq<OamEntry>, s: Scene, c: int)
    requires s.Valid()
    ensures TopObject(objs, s, c).Some? ==> TopObject(objs, s, c).value.value != 0
  {
  }
}
