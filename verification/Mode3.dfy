/** What every tick keeps in the pixel pipeline, and why pixel transfer always ends in time. */
module Mode3 {
  import opened Bytes
  import opened Registers
  import opened Fetch
  import opened Outputs
  import opened PpuCore

  // ---- The pipeline invariant

  // How the queues and the two fetch machines fit together, at all times.
  ghost predicate Linked(p: Pipe)
  {
    && (p.q.locked <==> p.f.sprite.Some?)
    && (p.f.sprite.Some? ==> p.f.spriteStep <= READ_LOW1)
    && (p.f.step == IDLE ==> p.f.sprite.Some? && |p.q.bg| == 8)
    && |p.q.bg| <= 8
    && (!p.q.bgEnabled ==> p.q.bg == [])
  }

  // Without background, pixel transfer gets no further than the first column on screen.
  ghost predicate Inv(p: Ppu)
  {
    p.Valid() && Linked(p.pipe) && (p.Mode() == DataXfer && !p.pipe.q.bgEnabled ==> p.x <= 0)
  }

  // The background is on, or the column that switches it on is still ahead.
  ghost predicate BgReachable(p: Ppu)
  {
    p.pipe.q.bgEnabled || p.x < -(p.regs.scx % 8)
  }

  // ---- The potential

  // Ticks until the tile being fetched can be pushed, counting the pushing tick.
  ghost function ToLoad(step: Step): nat
  {
    if step == IDLE then 7 else if step >= WRITE_LINE0 then 1 else 7 - step
  }

  // Columns that can pass before a new tile is needed.
  ghost function Supply(p: Ppu): int
  {
    Max(|p.pipe.q.bg|, -p.x)
  }

  // Dots still to be lost waiting for a tile.
  ghost function Starving(p: Ppu): nat
  {
    Max(0, ToLoad(p.pipe.f.step) - 1 - Supply(p))
  }

  // Ticks until the pending object is done.
  ghost function ObjectWork(f: FetchState): int
  {
    if f.sprite.None? then 0 else 6 - f.spriteStep + Max(0, 4 - f.step)
  }

  ghost function WindowWork(f: FetchState): nat
  {
    if f.mode == FmWindow then 0 else 11
  }

  // An upper bound for the dots left in mode 3.
  ghost function Potential(p: Ppu): int
  {
    WIDTH - p.x + Starving(p) + ObjectWork(p.pipe.f) + 10 * (p.numObjs - p.curObj) + WindowWork(p.pipe.f)
  }

  const MODE3_MAX := 295

  lemma PotentialBounds(p: Ppu)
    requires Inv(p) && p.Mode() == DataXfer
    ensures 1 <= Potential(p) <= MODE3_MAX
  {
  }

  // ---- One fetcher tick

  lemma BackgroundTick(p: Pipe, s: Scene)
    requires p.Valid() && s.Valid() && Linked(p)
    ensures var p' := BackgroundTicked(p, s);
      && Linked(p') && p'.f.mode == p.f.mode && p'.f.sprite == p.f.sprite && p'.f.spriteStep == p.f.spriteStep
      && p'.q == p.q.(bg := p'.q.bg)
      && (if p.q.bg == [] && p.q.bgEnabled && p.f.step >= WRITE_LINE0
          then |p'.q.bg| == 8 && p'.f.step == (if p.f.sprite.Some? then IDLE else READ_NUM0)
          else p'.q.bg == p.q.bg && p'.f.step == Next(p.f.step))
  {
  }

  lemma ObjectTick(p: Pipe, s: Scene)
    requires p.Valid() && s.Valid() && Linked(p) && p.f.sprite.Some?
    ensures var p' := ObjectTicked(p, s);
      && Linked(p') && p'.f.mode == p.f.mode && p'.q.bg == p.q.bg && p'.q.bgEnabled == p.q.bgEnabled
      && (if p.f.spriteStep == READ_LOW1
          then p'.f.sprite == None && p'.f.step == (if p.f.step == IDLE then READ_NUM0 else p.f.step)
          else p'.f.sprite == p.f.sprite && p'.f.step == p.f.step && p'.f.spriteStep == p.f.spriteStep + 1)
  {
  }

  // A tick works off the pending object, never lets the tile supply fall behind, and on an
  // empty queue brings the next tile closer.
  lemma FetchCost(p: Ppu)
    requires Inv(p)
    ensures var p' := FetchTicked(p);
      && Inv(p') && p'.pipe.f.mode == p.pipe.f.mode && p'.pipe.q.bgEnabled == p.pipe.q.bgEnabled
      && Starving(p') <= Starving(p)
      && (p'.pipe.q.bg != [] || p.x < 0 ==> Max(0, ToLoad(p'.pipe.f.step) - Supply(p')) <= Starving(p))
      && (p'.pipe.q.bg == [] && p.pipe.q.bgEnabled && p.x >= 0 ==> Starving(p') < Starving(p))
      && (p.pipe.f.sprite.Some? ==> ObjectWork(p'.pipe.f) < ObjectWork(p.pipe.f))
      && (p.pipe.f.sprite.None? ==> p'.pipe.f.sprite.None?)
      && ObjectWork(p'.pipe.f) >= 0
  {
    var p1 := BackgroundTicked(p.pipe, p.Scene());
    BackgroundTick(p.pipe, p.Scene());
    if p1.f.sprite.Some? && p1.f.step >= READ_LOW1 {
      ObjectTick(p1, p.Scene());
    }
  }

  // ---- One dot

  lemma WindowCost(p: Ppu)
    requires Inv(p) && WindowDue(p)
    ensures Inv(StartWindow(p)) && Potential(StartWindow(p)) < Potential(p)
  {
  }

  // Everything in the potential but the wait for tiles.
  ghost function OtherWork(p: Ppu): int
  {
    WIDTH - p.x + ObjectWork(p.pipe.f) + 10 * (p.numObjs - p.curObj) + WindowWork(p.pipe.f)
  }

  lemma ShiftCost(p: Ppu)
    requires Inv(p) && p.Mode() == DataXfer && BgReachable(p) && !Stalled(p)
    ensures var p' := Shifted(p).p;
      && Inv(p')
      && (p'.Mode() == DataXfer ==>
           BgReachable(p') && Potential(p') < OtherWork(p) + Max(0, ToLoad(p.pipe.f.step) - Supply(p)))
  {
    var p1 := PixelTaken(p);
    assert |p1.pipe.q.bg| >= |p.pipe.q.bg| - 1;
    assert p1.pipe.f == p.pipe.f;
  }

  lemma AfterFetchCost(p: Ppu, p1: Ppu)
    requires Inv(p) && p.Mode() == DataXfer && BgReachable(p)
    requires Inv(p1) && p1 == p.(pipe := p1.pipe, curObj := p1.curObj)
    requires p1.pipe.q.bgEnabled == p.pipe.q.bgEnabled
    requires OtherWork(p1) <= OtherWork(p) && (p1.pipe.q.locked ==> OtherWork(p1) < OtherWork(p))
    requires Starving(p1) <= Starving(p)
    requires p1.pipe.q.bg != [] || p.x < 0 ==> Max(0, ToLoad(p1.pipe.f.step) - Supply(p1)) <= Starving(p)
    requires p1.pipe.q.bg == [] && p.pipe.q.bgEnabled && p.x >= 0 ==> Starving(p1) < Starving(p)
    ensures var p' := WindowAndShift(p1).p;
      && Inv(p')
      && (p'.Mode() == DataXfer ==> BgReachable(p') && Potential(p') < Potential(p))
  {
    if WindowDue(p1) {
      WindowCost(p1);
    } else if !Stalled(p1) {
      ShiftCost(p1);
    }
  }

  ghost predicate Cheaper(p: Ppu, p': Ppu)
  {
    Inv(p') && (p'.Mode() == DataXfer ==> BgReachable(p') && Potential(p') < Potential(p))
  }

  lemma PendingDotCost(p: Ppu)
    requires Inv(p) && p.Mode() == DataXfer && BgReachable(p) && p.pipe.f.sprite.Some?
    ensures Cheaper(p, XferDot(p).p)
  {
    hide WindowAndShift, FetchTicked, Linked;
    FetchCost(p);
    var p1 := FetchTicked(p);
    if p1.pipe.f.sprite.None? && ObjectDue(p1) {
      NextObjectCost(p, p1);
    } else {
      LockedMeansPending(p1);
      AfterFetchCost(p, p1);
    }
  }

  lemma LockedMeansPending(p: Ppu)
    requires Inv(p)
    ensures p.pipe.q.locked <==> p.pipe.f.sprite.Some?
  {
  }

  lemma FreeDotCost(p: Ppu)
    requires Inv(p) && p.Mode() == DataXfer && BgReachable(p) && p.pipe.f.sprite.None?
    ensures Cheaper(p, XferDot(p).p)
  {
    hide WindowAndShift, FetchTicked, Linked;
    var p0 := ObjectStarted(p);
    StartedCost(p);
    FetchCost(p0);
    LockedMeansPending(FetchTicked(p0));
    AfterFetchCost(p, FetchTicked(p0));
  }

  lemma StartedCost(p: Ppu)
    requires Inv(p) && p.Mode() == DataXfer && p.pipe.f.sprite.None?
    ensures Inv(ObjectStarted(p)) && OtherWork(ObjectStarted(p)) <= OtherWork(p)
    ensures Starving(ObjectStarted(p)) == Starving(p)
  {
  }

  // A dot of mode 3 either ends the line or leaves strictly less to do.
  lemma XferDotCost(p: Ppu)
    requires Inv(p) && p.Mode() == DataXfer && BgReachable(p)
    ensures var p' := XferDot(p).p;
      && Inv(p')
      && (p'.Mode() == DataXfer ==> BgReachable(p') && Potential(p') < Potential(p))
  {
    hide XferDot, Linked, Potential, BgReachable;
    if p.pipe.f.sprite.Some? {
      PendingDotCost(p);
    } else {
      FreeDotCost(p);
    }
  }

  lemma NextObjectCost(p: Ppu, p1: Ppu)
    requires Inv(p) && Inv(p1) && p1 == p.(pipe := p1.pipe)
    requires p1.pipe.f.mode == p.pipe.f.mode && p1.pipe.q.bgEnabled == p.pipe.q.bgEnabled
    requires Starving(p1) <= Starving(p) && ObjectWork(p.pipe.f) > 0
    requires p1.pipe.f.sprite.None? && ObjectDue(p1)
    ensures Inv(StartObject(p1)) && Potential(StartObject(p1)) < Potential(p)
  {
  }
}
