/** When pixel transfer ends, whatever is written meanwhile; and the one write that stops it for good. */
module Deadline {
  import opened Bytes
  import opened Registers
  import opened PpuCore
  import opened Mode3
  import opened Batching
  import opened History

  // ---- One dot at any time of the line

  lemma {:induction false} DelayKeepsReach(p: Ppu)
    requires Inv(p) && p.Mode() == DataXfer
    ensures Inv(DelaySpent(p)) && Potential(DelaySpent(p)) <= Potential(p)
    ensures DelaySpent(p).pipe.q.bgEnabled == p.pipe.q.bgEnabled
    decreases p.delay
  {
    hide Potential, Linked, FetchTicked;
    if p.delay > 0 {
      var q := p.(delay := p.delay - 1);
      DelayTickCost(p);
      DelayKeepsReach(FetchTicked(q));
    }
  }

  lemma DelayTickCost(p: Ppu)
    requires Inv(p) && p.Mode() == DataXfer && p.delay > 0
    ensures var p' := FetchTicked(p.(delay := p.delay - 1));
      Inv(p') && Potential(p') <= Potential(p) && p'.pipe.q.bgEnabled == p.pipe.q.bgEnabled
  {
    FetchCost(p.(delay := p.delay - 1));
  }

  lemma XferDotOfDot(p: Ppu)
    requires Inv(p) && p.Mode() == DataXfer && p.enabled
    ensures Inv(DelaySpent(p)) && Inv(Dot(p).p) && Dot(p).p.enabled
    ensures Dot(p).p.pipe == XferDot(DelaySpent(p)).p.pipe && Dot(p).p.Mode() == XferDot(DelaySpent(p)).p.Mode()
    ensures Dot(p).p.x == XferDot(DelaySpent(p)).p.x && Dot(p).p.regs == XferDot(DelaySpent(p)).p.regs
    ensures Dot(p).p.curObj == XferDot(DelaySpent(p)).p.curObj && Dot(p).p.numObjs == XferDot(DelaySpent(p)).p.numObjs
    ensures Dot(p).p.Mode() == DataXfer || Dot(p).p.Mode() == HBlank
  {
    hide XferDot, Linked;
    DelayKeepsReach(p);
    DotKeepsInv(DelaySpent(p));
  }

  lemma ReachableDot(p: Ppu)
    requires Inv(p) && p.Mode() == DataXfer && p.enabled && BgReachable(p)
    ensures Inv(Dot(p).p) && Dot(p).p.enabled
    ensures Dot(p).p.Mode() == DataXfer ==> BgReachable(Dot(p).p) && Potential(Dot(p).p) < Potential(p)
  {
    hide XferDot, Linked, Dot;
    DelayKeepsReach(p);
    XferDotOfDot(p);
    XferDotCost(DelaySpent(p));
  }

  // ---- It ends within the potential, on whatever line cycle it stands

  lemma DotStays(p: Ppu)
    requires Inv(p) && p.Mode() == DataXfer && p.enabled
    ensures Dot(p).p.Mode() == DataXfer || Dot(p).p.Mode() == HBlank
  {
    hide XferDot, Linked, Dot;
    XferDotOfDot(p);
  }

  lemma {:induction false} Ends(p: Ppu) returns (n: nat)
    requires Inv(p) && p.Mode() == DataXfer && p.enabled && BgReachable(p)
    ensures 1 <= n <= Potential(p) <= MODE3_MAX && Run(p, n).p.Mode() == HBlank
    decreases Potential(p)
  {
    hide Potential, BgReachable, Linked, Dot, Run, Ppu.Valid;
    PotentialBounds(p);
    ReachableDot(p);
    DotStays(p);
    RunOne(p);
    n := 1;
    if Dot(p).p.Mode() == DataXfer {
      PotentialBounds(Dot(p).p);
      var m := Ends(Dot(p).p);
      RunAppend(p, 1, m);
      n := m + 1;
    }
  }

  // ---- Or it never ends

  // The column that switches the background on has been missed, and nothing but stalls is ahead.
  ghost predicate Missed(p: Ppu)
  {
    Inv(p) && p.enabled && p.Mode() == DataXfer && !BgReachable(p) && p.x <= 0
  }

  lemma UnreachableIsEarly(p: Ppu)
    requires Inv(p) && p.x <= 0 && !BgReachable(p)
    ensures p.pipe.q.bg == [] && -(p.regs.scx % 8) <= p.x <= 0
  {
  }

  lemma MissedFetch(p: Ppu)
    requires Inv(p) && !p.pipe.q.bgEnabled
    ensures Inv(FetchTicked(p)) && !FetchTicked(p).pipe.q.bgEnabled
  {
    hide Linked;
    FetchCost(p);
  }

  lemma MissedRest(p: Ppu)
    requires Missed(p)
    ensures Missed(WindowAndShift(p).p)
  {
    hide Linked;
    RestKeepsInv(p);
    UnreachableIsEarly(p);
  }

  lemma MissedDot(p: Ppu)
    requires Missed(p) && p.delay == 0
    ensures Missed(XferDot(p).p)
  {
    hide Linked, FetchTicked, WindowAndShift, StartObject;
    if p.pipe.f.sprite.Some? {
      MissedFetch(p);
      var p1 := FetchTicked(p);
      if p1.pipe.f.sprite.None? && ObjectDue(p1) {
        MissedStart(p1);
      } else {
        MissedRest(p1);
      }
    } else {
      if ObjectDue(p) {
        MissedStart(p);
      }
      MissedFetch(ObjectStarted(p));
      MissedRest(FetchTicked(ObjectStarted(p)));
    }
  }

  lemma MissedStart(p: Ppu)
    requires Missed(p) && ObjectDue(p)
    ensures Missed(StartObject(p))
  {
    hide Linked;
    StartKeepsInv(p);
  }

  lemma MissedStays(p: Ppu)
    requires Missed(p)
    ensures Missed(Dot(p).p)
  {
    hide XferDot, Linked, Dot;
    DelayKeepsReach(p);
    MissedDot(DelaySpent(p));
    XferDotOfDot(p);
  }

  lemma {:induction false} NeverEnds(p: Ppu, n: nat)
    requires Missed(p)
    ensures Missed(Run(p, n).p)
    decreases n
  {
    hide Dot, Missed;
    MissedIsInv(p);
    if n > 0 {
      MissedStays(p);
      NeverEnds(Dot(p).p, n - 1);
    }
  }

  lemma MissedIsInv(p: Ppu)
    requires Missed(p)
    ensures Inv(p) && p.Valid()
  {
  }

  // Left alone, pixel transfer ends if and only if the background is on or still to be switched on.
  lemma EndsExactly(p: Ppu)
    requires Inv(p) && p.Mode() == DataXfer && p.enabled
    ensures (exists n: nat :: Run(p, n).p.Mode() == HBlank) <==> BgReachable(p)
  {
    if BgReachable(p) {
      var n := Ends(p);
    } else {
      forall n: nat
        ensures Run(p, n).p.Mode() != HBlank
      {
        NeverEnds(p, n);
      }
    }
  }

  // ---- Which writes are harmful

  // The background would still be switched on at the new scroll.
  ghost predicate SafeScroll(p: Ppu, scx: Byte)
  {
    p.Mode() == DataXfer ==> p.pipe.q.bgEnabled || p.x < -(scx % 8)
  }

  // Only a write to SCX can spoil a line, and it does exactly when the background is still off
  // and the column that would switch it on at the new scroll has gone by.
  lemma WriteKeepsHealthy(p: Ppu, addr: Word, val: Byte)
    requires Healthy(p)
    ensures Healthy(Written(p, addr, val)) <==> (addr == SCX_ADDR ==> SafeScroll(p, val))
  {
    hide Linked, Potential, Written, Ppu.Valid;
    PotentialIgnoresRegs(p, Written(p, addr, val));
    WriteKeepsPipe(p, addr, val);
    if p.Mode() == DataXfer {
      PotentialBounds(p);
    }
  }

  // A write moves nothing in the pipeline; it can leave mode 3, and only an SCX write moves the
  // column at which the background is switched on.
  lemma WriteKeepsPipe(p: Ppu, addr: Word, val: Byte)
    requires Inv(p)
    ensures var q := Written(p, addr, val);
      && Inv(q) && q.pipe == p.pipe && q.x == p.x && q.numObjs == p.numObjs && q.curObj == p.curObj
      && (q.Mode() == p.Mode() || q.Mode() == OamSearch)
      && (q.Mode() == DataXfer ==> q.lineCycles == p.lineCycles)
      && q.regs.scx == (if addr == SCX_ADDR then val else p.regs.scx)
      && (addr == SCX_ADDR ==> q.Mode() == p.Mode())
  {
    hide Linked, Written, Ppu.Valid;
    InvIsValid(p);
    WriteMovesNothing(p, addr, val);
  }

  lemma PotentialIgnoresRegs(p: Ppu, q: Ppu)
    ensures q.pipe == p.pipe && q.x == p.x && q.numObjs == p.numObjs && q.curObj == p.curObj ==>
              Potential(q) == Potential(p)
  {
  }

  ghost predicate Safe(p: Ppu, e: Event)
  {
    e.Write? && e.addr == SCX_ADDR ==> SafeScroll(p, e.val)
  }

  ghost predicate AllSafe(p: Ppu, events: seq<Event>)
    requires p.Valid()
    decreases |events|
  {
    events != [] ==> Safe(p, events[0]) && AllSafe(After(p, events[0]), events[1..])
  }

  lemma SafeEventKeeps(p: Ppu, e: Event)
    requires Healthy(p) && Safe(p, e)
    ensures Healthy(After(p, e))
  {
    hide Batch, Written, Linked, Potential;
    match e
    case Tick(cycles) =>
      BatchIsRun(p, cycles);
      RunHealthy(p, cycles);
    case Write(addr, val) =>
      WriteKeepsHealthy(p, addr, val);
    case DmaWrite(addr, val) =>
      PotentialIgnoresRegs(p, WrittenByDma(p, addr, val));
    case SetDma(on) =>
      PotentialIgnoresRegs(p, p.(dma := on));
  }

  // Over any history of safe writes, every line keeps its deadline ...
  lemma {:induction false} AlwaysHealthy(p: Ppu, events: seq<Event>)
    requires Healthy(p) && AllSafe(p, events)
    ensures Healthy(AfterAll(p, events))
    decreases |events|
  {
    hide Healthy, After;
    HealthyIsValid(p);
    if events != [] {
      SafeEventKeeps(p, events[0]);
      AlwaysHealthy(After(p, events[0]), events[1..]);
    }
  }

  // ... so every batch of cycles in it is that many dots, however it is cut.
  lemma TicksSplit(p: Ppu, events: seq<Event>, a: nat, b: nat)
    requires Healthy(p) && AllSafe(p, events)
    ensures var q := AfterAll(p, events);
      && Batch(q, a + b).p == Batch(Batch(q, a).p, b).p
      && Batch(q, a + b).o == Batch(q, a).o + Batch(Batch(q, a).p, b).o
      && (q.enabled && q.Mode() == DataXfer ==> q.lineCycles + Potential(q) < LINE_CYCLES)
  {
    AlwaysHealthy(p, events);
    BatchSplits(AfterAll(p, events), a, b);
  }

  lemma PowerOnIsHealthy(p: Ppu)
    requires PoweredOn(p)
    ensures Healthy(p)
  {
  }
}
