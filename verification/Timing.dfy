/** How long a line takes. */
module Timing {
  import opened Registers
  import opened Oam
  import opened Fetch
  import opened Outputs
  import opened PpuCore
  import opened Conservation
  import opened Mode3
  import opened Batching
  import opened Picture
  import opened Scanline
  import opened Objects
  import opened Line
  import opened Frame

  // ---- The length of mode 3

  // A column takes at least a dot.
  lemma {:induction false} AtLeastColumns(p: Ppu)
    requires Healthy(p) && p.Mode() == DataXfer && p.enabled
    ensures DotsLeft(p) >= WIDTH - p.x
    decreases Potential(p)
  {
    hide Linked, Dot, BgReachable, SameLine, Potential;
    PotentialBounds(p);
    XferHealthy(p);
    DotMoves(p);
    if Dot(p).p.Mode() == DataXfer {
      PotentialBounds(Dot(p).p);
      AtLeastColumns(Dot(p).p);
    }
  }

  // From the start of any line: 168 dots at least and 295 at most; from a reset pipeline, at most 11
  // more than 168 for a window and 10 more for each object found.
  lemma LineLength(p: Ppu)
    requires LineBegins(p)
    ensures var q := StartTransfer(p).(lineCycles := OAM_CYCLES);
      && Healthy(q) && q.enabled && q.Mode() == DataXfer && 168 <= DotsLeft(q) <= MODE3_MAX
      && (LineStart(p) ==> DotsLeft(q) <= 179 + 10 * q.numObjs)
  {
    hide DotsLeft, LineObjs, BgReachable, Linked;
    var q := StartTransfer(p).(lineCycles := OAM_CYCLES);
    SearchConserves(p);
    TransferStart(p);
    PotentialBounds(q);
    AtLeastColumns(q);
  }

  // ---- The exact length of a line without objects

  ghost predicate WindowAhead(p: Ppu)
  {
    p.pipe.f.mode == FmBackground && p.regs.lcdc.winOn && p.regs.ly >= p.regs.wy && p.regs.wx - 7 < WIDTH
  }

  ghost function ExactLeft(p: Ppu): int
  {
    WIDTH - p.x + Starving(p) + (if WindowAhead(p) then 7 else 0)
  }

  ghost predicate NoObjects(p: Ppu)
    requires p.Valid()
  {
    p.pipe.f.sprite.None?
    && (p.regs.lcdc.objOn ==> forall k :: p.curObj <= k < p.numObjs ==> p.found[k].x > 167)
  }

  // The tile supply only runs short right after the window has started.
  ghost predicate WellFed(p: Ppu)
  {
    Starving(p) == 0 || (p.pipe.f.mode == FmWindow && p.pipe.q.bg == [] && p.x >= 0)
  }

  ghost predicate Quiet(p: Ppu)
  {
    LineInv(p) && WindowPlaced(p.regs) && NoObjects(p) && WellFed(p)
  }

  lemma QuietFetch(p: Ppu)
    requires Inv(p) && p.pipe.f.sprite.None? && WellFed(p) && BgReachable(p)
    ensures var p' := FetchTicked(p);
      && p'.pipe.f.sprite.None? && p'.pipe.f.mode == p.pipe.f.mode
      && (p'.pipe.q.bg == [] && p.x >= 0 ==> Starving(p') == Starving(p) - 1 && p.pipe.q.bg == [])
      && (p'.pipe.q.bg != [] || p.x < 0 ==> ToLoad(p'.pipe.f.step) <= Supply(p') && Starving(p) == 0)
  {
    BackgroundTick(p.pipe, p.Scene());
  }

  // Without objects every dot counts: the exact length goes down by one.
  lemma QuietRest(p: Ppu, p1: Ppu)
    requires Inv(p) && p.Mode() == DataXfer && WellFed(p) && BgReachable(p) && p.delay == 0
    requires p1.Valid() && p1 == p.(pipe := p1.pipe) && Linked(p1.pipe) && p1.pipe.q.bgEnabled == p.pipe.q.bgEnabled
    requires p1.pipe.f.sprite.None? && p1.pipe.f.mode == p.pipe.f.mode && WindowSide(p1) && WindowPlaced(p.regs)
    requires p1.pipe.q.bg == [] && p.x >= 0 ==> Starving(p1) == Starving(p) - 1 && p.pipe.q.bg == []
    requires p1.pipe.q.bg != [] || p.x < 0 ==> ToLoad(p1.pipe.f.step) <= Supply(p1) && Starving(p) == 0
    ensures var p' := WindowAndShift(p1).p;
      if p'.Mode() == DataXfer then WellFed(p') && ExactLeft(p') == ExactLeft(p) - 1 && p'.pipe.f.sprite.None?
      else ExactLeft(p) == 1
  {
    hide Linked;
    assert !p1.pipe.q.locked by { LockedIffPending(p1); }
    if !WindowDue(p1) && !Stalled(p1) {
      QuietShift(p, p1);
    }
  }

  lemma QuietShift(p: Ppu, p1: Ppu)
    requires p1.Valid() && p1.Mode() == DataXfer && p1 == p.(pipe := p1.pipe) && !WindowDue(p1) && !Stalled(p1)
    requires p1.pipe.f.mode == p.pipe.f.mode && p1.pipe.f.sprite.None?
    requires ToLoad(p1.pipe.f.step) <= Supply(p1) && Starving(p) == 0
    ensures var p' := Shifted(p1).p;
      if p'.Mode() == DataXfer then WellFed(p') && ExactLeft(p') == ExactLeft(p) - 1 && p'.pipe.f.sprite.None?
      else ExactLeft(p) == 1
  {
    var p' := PixelTaken(p1);
    assert |p'.pipe.q.bg| >= |p1.pipe.q.bg| - 1;
    assert p'.pipe.f == p1.pipe.f;
  }

  lemma RestColumn(p: Ppu)
    requires p.Valid() && p.Mode() == DataXfer
    ensures var p' := WindowAndShift(p).p;
      && p'.curObj == p.curObj
      && (p'.x == p.x || (p'.x == p.x + 1 && !Stalled(p) && !WindowDue(p)))
  {
  }

  lemma QuietXfer(p: Ppu)
    requires Quiet(p) && p.delay == 0
    ensures var p' := XferDot(p).p;
      if p'.Mode() == DataXfer then Quiet(p') && ExactLeft(p') == ExactLeft(p) - 1 else ExactLeft(p) == 1
  {
    hide FetchTicked, WindowAndShift, InStep, Queued, PendingObject, Linked, Starving, WindowAhead, LineEnded, BgFed;
    assert !ObjectDue(p) by { NeverDue(p); }
    var p1 := FetchTicked(p);
    LineIsValid(p);
    FetchCost(p);
    QuietFetch(p);
    LeftOfLine(p);
    BgFetched(p);
    FedWindow(p1);
    QuietRest(p, p1);
    XferLineStep(p);
    RestColumn(p1);
    if WindowAndShift(p1).p.Mode() == DataXfer {
      ObjectsStayAway(p, WindowAndShift(p1).p);
    }
  }

  lemma NeverDue(p: Ppu)
    requires p.Valid() && NoObjects(p) && p.x < WIDTH
    ensures !ObjectDue(p)
  {
  }

  lemma FedWindow(p: Ppu)
    requires p.Valid() && BgFed(p)
    ensures WindowSide(p)
  {
  }

  lemma ObjectsStayAway(p: Ppu, p': Ppu)
    requires p.Valid() && p'.Valid() && NoObjects(p) && p'.pipe.f.sprite.None?
    requires p'.curObj == p.curObj && p'.numObjs == p.numObjs && p'.found == p.found && p'.regs.lcdc == p.regs.lcdc
    ensures NoObjects(p')
  {
  }

  lemma {:induction false} QuietDelay(p: Ppu)
    requires Quiet(p) && Starving(p) == 0 && p.pipe.f.mode == FmBackground
    ensures Quiet(DelaySpent(p)) && ExactLeft(DelaySpent(p)) == ExactLeft(p)
    decreases p.delay
  {
    hide LineInv, FetchTicked, Starving;
    LineIsValid(p);
    if p.delay > 0 {
      var q := p.(delay := p.delay - 1);
      DelayTickInLine(p);
      QuietDelayTick(p);
      QuietDelay(FetchTicked(q));
    }
  }

  lemma QuietDelayTick(p: Ppu)
    requires Inv(p) && p.delay > 0 && NoObjects(p) && Starving(p) == 0 && p.pipe.f.mode == FmBackground
    ensures var q := FetchTicked(p.(delay := p.delay - 1));
      NoObjects(q) && WellFed(q) && Starving(q) == 0 && ExactLeft(q) == ExactLeft(p) && q.pipe.f.mode == FmBackground
  {
    FetchCost(p.(delay := p.delay - 1));
  }

  // A quiet line that still has its delay ticks to spend is in background mode and well fed.
  ghost predicate DelayFirst(p: Ppu)
  {
    p.delay > 0 ==> Starving(p) == 0 && p.pipe.f.mode == FmBackground
  }

  lemma QuietDot(p: Ppu)
    requires Quiet(p) && Healthy(p) && p.enabled && DelayFirst(p)
    ensures var p' := Dot(p).p;
      if p'.Mode() == DataXfer then Quiet(p') && ExactLeft(p') == ExactLeft(p) - 1 && DelayFirst(p')
      else ExactLeft(p) == 1
  {
    hide LineInv, XferDot, Linked, Starving, Potential, WindowAhead, SameLine, LineEnded, Column;
    LineIsValid(p);
    XferHealthy(p);
    if p.delay > 0 {
      QuietDelay(p);
    }
    QuietXfer(DelaySpent(p));
    DotInLine(p);
    QuietIgnoresClock(Dot(p).p, XferDot(DelaySpent(p)).p);
  }

  lemma QuietIgnoresClock(a: Ppu, b: Ppu)
    requires a == b.(lineCycles := a.lineCycles)
    ensures ExactLeft(a) == ExactLeft(b)
    ensures Quiet(b) && LineInv(a) ==> Quiet(a)
  {
    hide LineInv;
    assert Starving(a) == Starving(b);
    if Quiet(b) && LineInv(a) {
      LineIsValid(a);
      LineIsValid(b);
    }
  }

  lemma {:induction false} QuietRun(p: Ppu)
    requires Quiet(p) && Healthy(p) && p.enabled && DelayFirst(p)
    ensures DotsLeft(p) == ExactLeft(p)
    decreases Potential(p)
  {
    hide LineInv, NoObjects, WellFed, ExactLeft, Dot, Linked, BgReachable, DelayFirst;
    LineIsValid(p);
    PotentialBounds(p);
    XferHealthy(p);
    QuietDot(p);
    if Dot(p).p.Mode() == DataXfer {
      LineIsValid(Dot(p).p);
      PotentialBounds(Dot(p).p);
      QuietRun(Dot(p).p);
    }
  }

  // A line without objects takes exactly 168 dots, whatever the scroll, and 175 with a window.
  lemma QuietLineLength(p: Ppu)
    requires LineStart(p) && WindowPlaced(p.regs)
    requires p.regs.lcdc.objOn ==>
      forall e :: e in LineObjs(p.oam, p.regs.ly, p.regs.lcdc.tallObjs) ==> e.x > 167
    ensures var q := StartTransfer(p).(lineCycles := OAM_CYCLES);
      && Healthy(q) && q.enabled && q.Mode() == DataXfer
      && DotsLeft(q) == if WindowShown(p.regs, WIDTH - 1) then 175 else 168
  {
    hide DotsLeft, LineInv, LineObjs, StartTransfer, Starving, Potential, NoObjects, EdgeClear, Linked;
    var q := StartTransfer(p).(lineCycles := OAM_CYCLES);
    PlacedIsClear(p);
    SearchRun(p);
    LineIsValid(q);
    StartHasNoObjects(p);
    TransferStart(p);
    QuietRun(q);
  }

  lemma PlacedIsClear(p: Ppu)
    requires LineStart(p) && WindowPlaced(p.regs)
    ensures EdgeClear(p)
  {
    hide LineObjs;
  }

  lemma StartHasNoObjects(p: Ppu)
    requires LineStart(p)
    requires p.regs.lcdc.objOn ==>
      forall e :: e in LineObjs(p.oam, p.regs.ly, p.regs.lcdc.tallObjs) ==> e.x > 167
    ensures var q := StartTransfer(p).(lineCycles := OAM_CYCLES);
      q.Valid() && NoObjects(q) && Starving(q) == 0 && q.pipe.f.mode == FmBackground && q.x == -8
  {
    hide LineObjs;
    var q := StartTransfer(p).(lineCycles := OAM_CYCLES);
    var objs := LineObjs(p.oam, p.regs.ly, p.regs.lcdc.tallObjs);
    assert forall k :: 0 <= k < |objs| ==> q.found[k] == objs[k] && objs[k] in objs;
  }

  // ---- The modes of a line

  lemma {:induction false} StillTransfer(p: Ppu, n: nat)
    requires Healthy(p) && p.Mode() == DataXfer && p.enabled && n < DotsLeft(p)
    ensures p.Valid() && Run(p, n).p.Mode() == DataXfer
    decreases n
  {
    hide Linked, Dot, BgReachable, Potential;
    PotentialBounds(p);
    XferHealthy(p);
    if n > 0 {
      StillTransfer(Dot(p).p, n - 1);
    }
  }

  // A line is eighty dots of mode 2, then mode 3 for as long as it takes, then mode 0 up to dot 456.
  lemma LineModes(p: Ppu, n: nat)
    requires LineBegins(p) && n < 456
    ensures p.Valid()
    ensures var q := StartTransfer(p).(lineCycles := 80);
      && Healthy(q) && q.enabled && q.Mode() == DataXfer
      && Run(p, n).p.Mode() == (if n < 80 then OamSearch else if n < 80 + DotsLeft(q) then DataXfer else HBlank)
  {
    hide Run, DotsLeft, Linked, Potential, BgReachable, StartTransfer, DrawsRest, LineEnded;
    SearchConserves(p);
    var q := StartTransfer(p).(lineCycles := 80);
    if n < 80 {
      Batching.QuietRun(p, n);
    } else {
      RunAppend(p, 80, n - 80);
      if n < 80 + DotsLeft(q) {
        StillTransfer(q, n - 80);
      } else {
        TransferConserves(q);
        var e := Run(q, DotsLeft(q)).p;
        RunAppend(q, DotsLeft(q), n - 80 - DotsLeft(q));
        EndedRests(q, e, n - 80 - DotsLeft(q));
      }
    }
  }

  lemma EndedRests(q: Ppu, e: Ppu, n: nat)
    requires LineEnded(q, e) && q.enabled && e.lineCycles + n < 456
    ensures Run(e, n).p.Mode() == HBlank
  {
    hide Run;
    Batching.QuietRun(e, n);
  }

  // ---- How long an object takes

  // Ticks until an object's fetch is done: six of its own, after the tile fetch has got to its fifth step.
  function ObjectTicks(f: FetchState): int
  {
    (if f.step < 4 then 4 - f.step else 0) + 6 - f.spriteStep
  }

  // A dot on an object that is not done yet only ticks it.
  lemma HoldsOne(p: Ppu)
    requires Inv(p) && p.enabled && p.Mode() == DataXfer && p.delay == 0 && !WindowDue(p)
    requires p.pipe.f.sprite.Some? && ObjectTicks(p.pipe.f) > 1
    ensures var d := Dot(p);
      && Inv(d.p) && d.p.enabled && d.p.Mode() == DataXfer && d.p.delay == 0 && !WindowDue(d.p) && d.o == []
      && d.p.pipe.f.sprite == p.pipe.f.sprite && d.p.x == p.x && d.p.curObj == p.curObj
      && ObjectTicks(d.p.pipe.f) == ObjectTicks(p.pipe.f) - 1
  {
    hide ObjectTicked, BackgroundTicked;
    FetchCost(p);
    var s := p.Scene();
    var p1 := BackgroundTicked(p.pipe, s);
    BackgroundTick(p.pipe, s);
    if p1.f.step >= READ_LOW1 {
      ObjectTick(p1, s);
    }
    assert XferDot(p) == Out(FetchTicked(p), []);
  }

  // The last one ends the fetch, and may start that of the next object.
  lemma HoldsLast(p: Ppu)
    requires Inv(p) && p.enabled && p.Mode() == DataXfer && p.delay == 0
    requires p.pipe.f.sprite.Some? && ObjectTicks(p.pipe.f) == 1
    ensures var d := Dot(p).p; d.pipe.f.sprite.None? || d.curObj == p.curObj + 1
  {
    hide ObjectTicked, BackgroundTicked, Shifted;
    FetchCost(p);
    var s := p.Scene();
    var p1 := BackgroundTicked(p.pipe, s);
    BackgroundTick(p.pipe, s);
    ObjectTick(p1, s);
    assert FetchTicked(p).pipe.f.sprite.None?;
    if !ObjectDue(FetchTicked(p)) {
      RestKeepsNone(FetchTicked(p));
    }
  }

  lemma RestKeepsNone(p: Ppu)
    requires p.Valid() && p.Mode() == DataXfer && p.pipe.f.sprite.None?
    ensures WindowAndShift(p).p.pipe.f.sprite.None?
  {
  }

  // An object that is being fetched holds its column for exactly that many dots, whatever is queued.
  lemma {:induction false} ObjectHolds(p: Ppu, k: nat)
    requires Inv(p) && p.enabled && p.Mode() == DataXfer && p.delay == 0 && !WindowDue(p)
    requires p.pipe.f.sprite.Some? && k <= ObjectTicks(p.pipe.f)
    ensures p.Valid()
    ensures var r := Run(p, k);
      && (k < ObjectTicks(p.pipe.f) ==> r.p.pipe.f.sprite == p.pipe.f.sprite && r.p.x == p.x && r.o == [])
      && (k == ObjectTicks(p.pipe.f) ==> r.p.pipe.f.sprite.None? || r.p.curObj == p.curObj + 1)
    decreases k
  {
    hide Dot, Linked, WindowDue, ObjectTicks;
    AtLeastOneTick(p);
    if k > 0 {
      if ObjectTicks(p.pipe.f) > 1 {
        HoldsOne(p);
        ObjectHolds(Dot(p).p, k - 1);
        assert [] + Run(Dot(p).p, k - 1).o == Run(Dot(p).p, k - 1).o;
      } else {
        HoldsLast(p);
        RunOne(p);
      }
    }
  }

  lemma AtLeastOneTick(p: Ppu)
    requires Inv(p) && p.pipe.f.sprite.Some?
    ensures p.Valid() && ObjectTicks(p.pipe.f) >= 1
  {
  }
}
