/** A whole line: from the object search to horizontal blanking. */
module Line {
  import opened Registers
  import opened PixelFifo
  import opened Oam
  import opened Fetch
  import opened Outputs
  import opened PpuCore
  import opened Mode3
  import opened Batching
  import opened Conservation
  import opened Picture
  import opened Scanline
  import opened Objects

  // A window on this line does not reach beyond the left edge of the screen.
  predicate WindowPlaced(r: Regs)
  {
    r.lcdc.winOn && r.ly >= r.wy ==> r.wx >= 7
  }

  // Or, if it does, no object that is fetched between there and the edge delays it.
  ghost predicate LeftClear(r: Regs, objs: seq<OamEntry>)
  {
    !WindowPlaced(r) && r.lcdc.objOn ==> forall k :: 0 <= k < |objs| ==> !(r.wx < objs[k].x <= 7)
  }

  ghost predicate LineInv(p: Ppu)
  {
    Inv(p) && p.Mode() == DataXfer && LeftClear(p.regs, Objs(p)) && BgSide(p) && ObjSide(p)
  }

  lemma LeftIsClear(p: Ppu)
    requires p.Valid() && LeftClear(p.regs, Objs(p)) && WindowSide(p) && Progress(p) && PendingObject(p)
    ensures LeftEdgeClear(p)
    ensures p.pipe.f.mode == FmWindow && p.x < 0 ==> !ObjectDue(p)
  {
    hide ReadSoFar;
    assert forall k :: 0 <= k < p.numObjs ==> Objs(p)[k] == p.found[k];
  }

  ghost function Objs(p: Ppu): seq<OamEntry>
    requires p.Valid()
  {
    p.found[..p.numObjs]
  }

  // What the picture shows at column c, as the output that draws it.
  ghost function Column(p: Ppu, c: Col): Output
    requires p.Valid() && p.regs.ly < HEIGHT
  {
    Draw(p.regs.ly, c, LevelAt(p.Scene(), p.winY, ShownLeft(p.regs), Objs(p), c))
  }

  lemma DrawnIsColumn(p: Ppu)
    requires Inv(p) && p.Mode() == DataXfer && BgFed(p) && ObjSide(p) && 0 <= p.x
    requires !Stalled(p) && !WindowDue(p) && !ObjectDue(p)
    ensures Drawn(p) == [Column(p, p.x)]
  {
    hide Mixed, TopObject, Under, Level, BgFed, ObjSide;
    BgHead(p);
    ObjHead(p, p.pipe.q.bg[0]);
  }

  // A dot of a line stalls, or passes a column and draws it if it is on screen, or ends the line.
  ghost predicate LineStep(p: Ppu, d: Out)
    requires p.Valid() && p.regs.ly < HEIGHT && p.x < WIDTH
  {
    if d.p.Mode() == DataXfer then
      && LineInv(d.p) && SameLine(p, d.p) && d.p.winY == p.winY
      && ((d.p.x == p.x && d.o == [])
          || (d.p.x == p.x + 1 && d.o == if p.x >= 0 then [Column(p, p.x)] else []))
    else
      && p.x == WIDTH - 1 && LineEnded(p, d.p)
      && d.o == [Column(p, p.x)] + ModeRequests(p.enabled, p.regs.stat, HBlank)
  }

  lemma ShiftStep(p: Ppu)
    requires Inv(p) && p.Mode() == DataXfer && LeftClear(p.regs, Objs(p)) && BgFed(p) && ObjSide(p) && p.delay == 0
    requires !Stalled(p) && !WindowDue(p) && !ObjectDue(p) && BgReachable(p)
    ensures LineStep(p, Shifted(p))
  {
    hide BgSide, ObjSide, BgFed, Column, Drawn, Linked, ObjectDue;
    if p.x >= 0 {
      DrawnIsColumn(p);
    } else {
      assert Drawn(p) == [] by { NothingDrawn(p); }
    }
    if p.x + 1 < WIDTH {
      ShiftCost(p);
      BgShifted(p);
      ObjShifted(p);
    }
  }

  lemma NothingDrawn(p: Ppu)
    requires p.Valid() && p.Mode() == DataXfer && !Stalled(p) && p.x < 0
    ensures Drawn(p) == []
  {
  }

  lemma AfterFetchStep(p: Ppu)
    requires Inv(p) && p.Mode() == DataXfer && LeftClear(p.regs, Objs(p)) && BgFed(p) && ObjSide(p) && p.delay == 0
    requires p.pipe.f.sprite.None? ==> !ObjectDue(p)
    ensures LineStep(p, WindowAndShift(p))
  {
    hide BgSide, ObjSide, BgFed, Linked, ObjectDue, Shifted, StartWindow, LeftClear;
    FedIsReachable(p);
    LeftOfFed(p);
    if WindowDue(p) {
      WindowCost(p);
      BgWindowStarts(p);
      WindowKeepsObjects(p);
    } else if Stalled(p) {
      LockedIffPending(p);
      BgWaits(p);
    } else {
      LockedIffPending(p);
      ShiftStep(p);
    }
  }

  lemma LeftOfFed(p: Ppu)
    requires p.Valid() && LeftClear(p.regs, Objs(p)) && BgFed(p) && ObjSide(p)
    ensures LeftEdgeClear(p)
    ensures p.pipe.f.mode == FmWindow && p.x < 0 ==> !ObjectDue(p)
  {
    LeftIsClear(p);
  }

  lemma LeftOfLine(p: Ppu)
    requires LineInv(p)
    ensures LeftEdgeClear(p)
    ensures p.pipe.f.mode == FmWindow && p.x < 0 ==> !ObjectDue(p)
  {
    LeftIsClear(p);
  }

  lemma FedIsReachable(p: Ppu)
    requires p.Valid() && BgFed(p)
    ensures BgReachable(p)
  {
  }

  lemma LockedIffPending(p: Ppu)
    requires Inv(p)
    ensures p.pipe.q.locked <==> p.pipe.f.sprite.Some?
  {
  }

  lemma WindowKeepsObjects(p: Ppu)
    requires p.Valid() && ObjSide(p)
    ensures ObjSide(StartWindow(p))
  {
    hide Queued, ReadSoFar;
    if p.pipe.f.sprite.Some? {
      SameReads(p.pipe.f, StartWindow(p).pipe.f, p.found[p.curObj - 1], p.Scene());
    }
  }

  // Going from the state before the fetcher's tick to the one after it changes no column.
  lemma StepFromBefore(p: Ppu, p1: Ppu, d: Out)
    requires p.Valid() && p1.Valid() && p.regs.ly < HEIGHT && p.x < WIDTH
    requires p1 == p.(pipe := p1.pipe, curObj := p1.curObj) && LineStep(p1, d)
    ensures LineStep(p, d)
  {
    hide LineInv, LevelAt;
  }

  lemma XferLineStep(p: Ppu)
    requires LineInv(p) && p.delay == 0
    ensures LineStep(p, XferDot(p))
  {
    hide BgSide, ObjSide, BgFed, Linked, ObjectDue, FetchTicked, StartObject, WindowAndShift, LineStep, LeftClear;
    LeftOfLine(p);
    if p.pipe.f.sprite.Some? {
      var p1 := FetchTicked(p);
      FetchCost(p);
      BgFetched(p);
      ObjFetched(p);
      if p1.pipe.f.sprite.None? && ObjectDue(p1) {
        NextObjectStep(p1);
      } else {
        AfterFetchStep(p1);
      }
      StepFromBefore(p, p1, XferDot(p));
    } else {
      var p0 := ObjectStarted(p);
      StartedKeeps(p);
      var p1 := FetchTicked(p0);
      FetchCost(p0);
      LeftOfLine(p0);
      BgFetched(p0);
      ObjFetched(p0);
      StillDue(p0);
      AfterFetchStep(p1);
      StepFromBefore(p, p1, XferDot(p));
    }
  }

  // The next object at the same column starts on the dot that completes the one before.
  lemma NextObjectStep(p: Ppu)
    requires Inv(p) && p.Mode() == DataXfer && LeftClear(p.regs, Objs(p)) && BgFed(p) && ObjSide(p) && p.delay == 0
    requires p.pipe.f.sprite.None? && ObjectDue(p)
    ensures LineStep(p, Out(StartObject(p), []))
  {
    hide BgSide, ObjSide, BgFed;
    LeftOfFed(p);
    ObjStarted(p);
    BgWaits(p);
    StartKeepsBg(p);
  }

  lemma StartKeepsBg(p: Ppu)
    requires Inv(p) && BgSide(p) && ObjectDue(p)
    ensures Inv(StartObject(p)) && BgSide(StartObject(p))
  {
    hide StreamAt, FetchedSoFar;
    assert StartObject(p).pipe.f == p.pipe.f.StartSprite(p.curObj);
    FetchedIgnoresObject(p.pipe.f, p.curObj, p.Scene());
  }

  lemma FetchedIgnoresObject(f: FetchState, k: nat, s: Scene)
    requires s.Valid()
    ensures forall t: nat :: FetchedSoFar(f, s, t) ==> FetchedSoFar(f.StartSprite(k), s, t)
  {
  }

  lemma StartedKeeps(p: Ppu)
    requires LineInv(p) && p.pipe.f.sprite.None?
    ensures LineInv(ObjectStarted(p))
    ensures ObjectStarted(p).pipe.f.sprite.None? ==> !ObjectDue(ObjectStarted(p))
    ensures ObjectStarted(p).pipe.f.spriteStep != READ_LOW1
  {
    hide BgSide, ObjSide;
    if ObjectDue(p) {
      ObjStarted(p);
      StartKeepsBg(p);
    }
  }

  // A tick completes no object that has only just started, and makes none due.
  lemma StillDue(p: Ppu)
    requires Inv(p) && (p.pipe.f.sprite.None? ==> !ObjectDue(p)) && p.pipe.f.spriteStep != READ_LOW1
    ensures FetchTicked(p).pipe.f.sprite.None? ==> !ObjectDue(FetchTicked(p))
  {
    var p1 := BackgroundTicked(p.pipe, p.Scene());
    BackgroundTick(p.pipe, p.Scene());
    if p1.f.sprite.Some? && p1.f.step >= READ_LOW1 {
      ObjectTick(p1, p.Scene());
    }
  }

  // ---- The delay ticks at the start of a line with a fine scroll

  lemma DelayTickInLine(p: Ppu)
    requires LineInv(p) && p.delay > 0
    ensures LineInv(FetchTicked(p.(delay := p.delay - 1)))
  {
    hide ObjSide, InStep, Fetch.Ticked;
    var q := p.(delay := p.delay - 1);
    assert ObjSide(q) by { DelayKeepsObjects(p); }
    assert InStep(q.pipe, q.Scene(), Passed(p));
    FetchCost(q);
    FetchInStep(q, Passed(p));
    ObjFetched(q);
  }

  lemma DelayKeepsObjects(p: Ppu)
    requires p.Valid() && ObjSide(p) && p.delay > 0
    ensures p.(delay := p.delay - 1).Valid() && ObjSide(p.(delay := p.delay - 1))
  {
    hide Queued, ReadSoFar;
  }

  lemma {:induction false} DelayInLine(p: Ppu)
    requires LineInv(p)
    ensures LineInv(DelaySpent(p))
    decreases p.delay
  {
    hide LineInv, FetchTicked;
    LineIsValid(p);
    if p.delay > 0 {
      DelayTickInLine(p);
      DelayInLine(FetchTicked(p.(delay := p.delay - 1)));
    }
  }

  lemma LineIsValid(p: Ppu)
    requires LineInv(p)
    ensures Inv(p) && p.Valid() && BgReachable(p) && p.Mode() == DataXfer && p.x < WIDTH && p.regs.ly < HEIGHT
    ensures p.delay > 0 ==> p.(delay := p.delay - 1).Valid()
  {
  }

  // ---- Transfer as a run of dots

  // Columns `from` to the right edge, in order.
  ghost function Columns(p: Ppu, from: nat): (o: seq<Output>)
    requires p.Valid() && p.regs.ly < HEIGHT && from <= WIDTH
    ensures |o| == WIDTH - from
  {
    seq(WIDTH - from, i requires 0 <= i < WIDTH - from => Column(p, from + i))
  }

  // One dot of an ongoing line, clock included.
  lemma DotInLine(p: Ppu)
    requires LineInv(p) && Healthy(p) && p.enabled
    ensures LineStep(p, Dot(p))
    ensures Dot(p).p.lineCycles == p.lineCycles + 1
  {
    hide LineInv, LineStep, XferDot, Potential, Linked;
    LineIsValid(p);
    PotentialBounds(p);
    XferHealthy(p);
    DelayInLine(p);
    LineIsValid(DelaySpent(p));
    XferLineStep(DelaySpent(p));
    StepWithClock(p, DelaySpent(p), XferDot(DelaySpent(p)));
  }

  lemma LineIgnoresClock(p: Ppu, c: nat)
    requires LineInv(p) && c < LINE_CYCLES
    ensures LineInv(p.(lineCycles := c))
  {
    hide InStep, Queued, ReadSoFar, Linked;
  }

  lemma StepWithClock(p: Ppu, q: Ppu, d: Out)
    requires LineInv(p) && q.Valid() && q == p.(pipe := q.pipe, delay := 0) && LineStep(q, d)
    requires d.p.lineCycles == p.lineCycles && p.lineCycles + 1 < LINE_CYCLES
    ensures LineStep(p, Out(Advanced(d.p, 1), d.o))
  {
    hide BgSide, ObjSide, Linked, LevelAt;
    if d.p.Mode() == DataXfer {
      LineIgnoresClock(d.p, p.lineCycles + 1);
    }
  }

  lemma SameColumns(p: Ppu, p': Ppu, from: nat)
    requires p.Valid() && p'.Valid() && p.regs.ly < HEIGHT && from <= WIDTH
    requires SameLine(p, p') && p'.Mode() == p.Mode() && p'.winY == p.winY
    ensures Columns(p', from) == Columns(p, from)
  {
    hide LevelAt;
    assert p'.regs.stat == p.regs.stat;
    assert p'.Scene() == p.Scene();
    forall i | 0 <= i < WIDTH - from
      ensures Columns(p', from)[i] == Columns(p, from)[i]
    {
      assert Column(p', from + i) == Column(p, from + i);
    }
  }

  // One step's output, followed by the rest of the line, is the line from here.
  lemma StepThenRest(p: Ppu, d: Out)
    requires LineInv(p) && p.regs.ly < HEIGHT && p.x < WIDTH && LineStep(p, d) && d.p.Mode() == DataXfer
    ensures d.p.Valid() && d.p.regs.ly < HEIGHT && d.p.x < WIDTH
    ensures Columns(d.p, FromX(d.p)) == Columns(p, FromX(d.p))
    ensures d.o + Columns(p, FromX(d.p)) == Columns(p, FromX(p))
  {
    hide LevelAt, BgSide, ObjSide, Linked;
    SameColumns(p, d.p, FromX(d.p));
  }

  // A run's end, seen from one dot earlier.
  lemma OneDotEarlier(p: Ppu, d: Out, rest: Out)
    requires LineInv(p) && p.regs.ly < HEIGHT && p.x < WIDTH && LineStep(p, d) && d.p.Mode() == DataXfer
    requires d.p.Valid() && d.p.regs.ly < HEIGHT && d.p.x < WIDTH && LineEnded(d.p, rest.p)
    requires rest.o == Columns(d.p, FromX(d.p)) + ModeRequests(d.p.enabled, d.p.regs.stat, HBlank)
    ensures LineEnded(p, rest.p)
    ensures d.o + rest.o == Columns(p, FromX(p)) + ModeRequests(p.enabled, p.regs.stat, HBlank)
  {
    hide LevelAt, BgSide, ObjSide, Linked, Columns, ModeRequests, FromX;
    StepThenRest(p, d);
    assert d.p.regs.stat == p.regs.stat;
    var reqs := ModeRequests(p.enabled, p.regs.stat, HBlank);
    assert d.o + (Columns(p, FromX(d.p)) + reqs) == (d.o + Columns(p, FromX(d.p))) + reqs;
  }

  lemma LastDotOfLine(p: Ppu, d: Out)
    requires LineInv(p) && p.regs.ly < HEIGHT && p.x < WIDTH && LineStep(p, d) && d.p.Mode() != DataXfer
    ensures LineEnded(p, d.p)
    ensures d.o == Columns(p, FromX(p)) + ModeRequests(p.enabled, p.regs.stat, HBlank)
  {
    hide LevelAt, BgSide, ObjSide, Linked, ModeRequests;
    assert Columns(p, WIDTH - 1) == [Column(p, WIDTH - 1)];
  }

  // The rest of mode 3 draws the rest of the line, each column once and in order.
  lemma {:induction false} TransferRun(p: Ppu)
    requires LineInv(p) && Healthy(p) && p.enabled
    ensures p.Valid() && p.x < WIDTH && p.regs.ly < HEIGHT
    ensures var r := Run(p, DotsLeft(p));
      && LineEnded(p, r.p) && r.p.lineCycles == p.lineCycles + DotsLeft(p)
      && r.o == Columns(p, FromX(p)) + ModeRequests(p.enabled, p.regs.stat, HBlank)
    decreases Potential(p)
  {
    hide LineInv, Potential, Linked, Dot, Columns, BgReachable, ModeRequests, LineEnded, LineStep, FromX;
    LineIsValid(p);
    XferHealthy(p);
    DotInLine(p);
    var d := Dot(p);
    if d.p.Mode() == DataXfer {
      LineGoesOn(p, d);
      TransferRun(d.p);
      OneDotEarlier(p, d, Run(d.p, DotsLeft(d.p)));
    } else {
      RunOne(p);
      LastDotOfLine(p, d);
    }
  }

  lemma LineGoesOn(p: Ppu, d: Out)
    requires LineInv(p) && p.regs.ly < HEIGHT && p.x < WIDTH && LineStep(p, d) && d.p.Mode() == DataXfer
    ensures LineInv(d.p) && d.p.Valid() && d.p.regs.ly < HEIGHT && d.p.x < WIDTH && d.p.enabled == p.enabled
    ensures Potential(d.p) >= 1
  {
    hide Potential, BgSide, ObjSide, Linked;
    PotentialBounds(d.p);
  }
}
