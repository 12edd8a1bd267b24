/** A batch of cycles is that many single dots, as long as pixel transfer can finish its line. */
module Batching {
  import opened Registers
  import opened PixelFifo
  import opened Fetch
  import opened Oam
  import opened Outputs
  import opened PpuCore
  import opened Mode3

  // The pipeline invariant, and in mode 3 enough of the line left for the work that remains.
  ghost predicate Healthy(p: Ppu)
  {
    && Inv(p)
    && (p.Mode() == DataXfer ==> BgReachable(p) && p.lineCycles + Potential(p) < LINE_CYCLES)
  }

  // ---- Healthy is kept

  lemma DelayTickKeepsHealthy(p: Ppu)
    requires Healthy(p) && p.Mode() == DataXfer && p.delay > 0
    ensures var p' := FetchTicked(p.(delay := p.delay - 1)); Healthy(p') && Potential(p') <= Potential(p)
  {
    FetchCost(p.(delay := p.delay - 1));
  }

  lemma {:induction false} DelayKeepsHealthy(p: Ppu)
    requires Healthy(p) && p.Mode() == DataXfer
    ensures Healthy(DelaySpent(p)) && Potential(DelaySpent(p)) <= Potential(p)
    decreases p.delay
  {
    if p.delay > 0 {
      DelayTickKeepsHealthy(p);
      DelayKeepsHealthy(FetchTicked(p.(delay := p.delay - 1)));
    }
  }

  lemma TransferStartsHealthy(p: Ppu)
    requires Inv(p) && p.Mode() == OamSearch
    ensures Inv(StartTransfer(p)) && BgReachable(StartTransfer(p))
    ensures Potential(StartTransfer(p)) <= MODE3_MAX
  {
    PotentialBounds(StartTransfer(p));
  }

  // A dot of mode 3 moves the clock by one and the potential down by one.
  lemma XferHealthy(p: Ppu)
    requires Healthy(p) && p.Mode() == DataXfer && p.enabled
    ensures Healthy(Dot(p).p)
    ensures Dot(p).p.Mode() == DataXfer ==> Potential(Dot(p).p) < Potential(p)
    ensures Dot(p).p.Mode() == DataXfer || Dot(p).p.Mode() == HBlank
    ensures Dot(p).p.lineCycles == p.lineCycles + 1 && Dot(p).p.delay == 0 && Dot(p).p.enabled
  {
    DelayKeepsHealthy(p);
    var q := DelaySpent(p);
    PotentialBounds(q);
    XferDotCost(q);
    assert Dot(p).p.pipe == XferDot(q).p.pipe;
  }

  lemma DotHealthy(p: Ppu)
    requires Healthy(p)
    ensures Healthy(Dot(p).p)
  {
    if p.enabled {
      if p.Mode() == DataXfer {
        XferHealthy(p);
      } else if p.Mode() == OamSearch {
        hide StartTransfer, Potential, Linked, XferDot, EndOfLine;
        TransferStartsHealthy(p);
      } else {
        hide StartTransfer, Potential, XferDot, Linked, EndOfLine;
      }
    }
  }

  lemma {:induction false} RunHealthy(p: Ppu, dots: nat)
    requires Healthy(p)
    ensures Healthy(Run(p, dots).p)
    decreases dots
  {
    if dots > 0 {
      DotHealthy(p);
      RunHealthy(Dot(p).p, dots - 1);
    }
  }

  // ---- Runs compose

  lemma {:induction false} RunAppend(p: Ppu, a: nat, b: nat)
    requires p.Valid()
    ensures var r, s := Run(p, a), Run(Run(p, a).p, b);
      Run(p, a + b) == Out(s.p, r.o + s.o)
    decreases a
  {
    hide Dot;
    if a == 0 {
      assert [] + Run(p, b).o == Run(p, b).o;
    } else {
      var d := Dot(p);
      RunAppend(d.p, a - 1, b);
      var r, s := Run(d.p, a - 1), Run(Run(p, a).p, b);
      assert d.o + (r.o + s.o) == (d.o + r.o) + s.o;
    }
  }

  lemma RunOne(p: Ppu)
    requires p.Valid()
    ensures Run(p, 1) == Dot(p)
  {
    hide Dot;
    assert Run(Dot(p).p, 0) == Out(Dot(p).p, []);
    assert Dot(p).o + [] == Dot(p).o;
  }

  // ---- Nothing reads the clock but the mode boundaries

  lemma FetchIgnoresClock(p: Ppu, c: nat)
    requires p.Valid() && p.Mode() == DataXfer && c < LINE_CYCLES
    ensures FetchTicked(p.(lineCycles := c)) == FetchTicked(p).(lineCycles := c)
    ensures ObjectStarted(p.(lineCycles := c)) == ObjectStarted(p).(lineCycles := c)
  {
    hide Fetch.Ticked;
  }

  lemma PixelIgnoresClock(p: Ppu, c: nat)
    requires p.Valid() && p.Mode() == DataXfer && c < LINE_CYCLES
    ensures PixelTaken(p.(lineCycles := c)) == PixelTaken(p).(lineCycles := c)
    ensures !Stalled(p) ==> Drawn(p.(lineCycles := c)) == Drawn(p)
  {
    hide Fifo.Output, Fifo.Popped, Level;
  }

  lemma LineDoneIgnoresClock(p: Ppu, c: nat)
    requires p.(x := 0).Valid() && p.Mode() == DataXfer && c < LINE_CYCLES
    ensures LineDone(p.(lineCycles := c)) == LineDone(p).(lineCycles := c)
  {
  }

  lemma ShiftIgnoresClock(p: Ppu, c: nat)
    requires p.Valid() && p.Mode() == DataXfer && c < LINE_CYCLES
    ensures var r := WindowAndShift(p);
      WindowAndShift(p.(lineCycles := c)) == Out(r.p.(lineCycles := c), r.o)
  {
    hide PixelTaken, Drawn, LineDone, FetchState.StartWindow, Fifo.Clear;
    if !WindowDue(p) && !Stalled(p) {
      PixelIgnoresClock(p, c);
      if PixelTaken(p).x == WIDTH {
        LineDoneIgnoresClock(PixelTaken(p), c);
      }
    }
  }

  lemma EndOfLineIgnoresClock(p: Ppu, c: nat)
    requires p.Valid() && Blanking(p.regs) && c < LINE_CYCLES
    ensures EndOfLine(p.(lineCycles := c)) == Out(EndOfLine(p).p.(lineCycles := c), EndOfLine(p).o)
  {
    hide Pipe.Valid, Regs.OffsetsAgree, ModeRequests, LineRequests, NextRegs, NextMode, NextLine;
  }

  lemma PendingIgnoresClock(p: Ppu, c: nat)
    requires p.Valid() && p.Mode() == DataXfer && c < LINE_CYCLES && p.pipe.f.sprite.Some?
    ensures XferDot(p.(lineCycles := c)) == Out(XferDot(p).p.(lineCycles := c), XferDot(p).o)
  {
    hide FetchTicked, WindowAndShift, ObjectStarted, Pipe.Valid, Regs.OffsetsAgree;
    FetchIgnoresClock(p, c);
    ShiftIgnoresClock(FetchTicked(p), c);
  }

  lemma FreeIgnoresClock(p: Ppu, c: nat)
    requires p.Valid() && p.Mode() == DataXfer && c < LINE_CYCLES && p.pipe.f.sprite.None?
    ensures XferDot(p.(lineCycles := c)) == Out(XferDot(p).p.(lineCycles := c), XferDot(p).o)
  {
    hide FetchTicked, WindowAndShift, ObjectStarted, Pipe.Valid, Regs.OffsetsAgree;
    FetchIgnoresClock(p, c);
    FetchIgnoresClock(ObjectStarted(p), c);
    ShiftIgnoresClock(FetchTicked(ObjectStarted(p)), c);
  }

  lemma XferDotIgnoresClock(p: Ppu, c: nat)
    requires p.Valid() && p.Mode() == DataXfer && c < LINE_CYCLES
    ensures XferDot(p.(lineCycles := c)) == Out(XferDot(p).p.(lineCycles := c), XferDot(p).o)
  {
    hide XferDot, Ppu.Valid;
    if p.pipe.f.sprite.Some? {
      PendingIgnoresClock(p, c);
    } else {
      FreeIgnoresClock(p, c);
    }
  }

  lemma {:induction false} StretchIgnoresClock(p: Ppu, c: nat, cycles: nat)
    requires p.Valid() && p.Mode() == DataXfer && c < LINE_CYCLES
    ensures var s := XferStretch(p, cycles);
      XferStretch(p.(lineCycles := c), cycles) == Stretch(s.p.(lineCycles := c), s.consumed, s.o)
    decreases cycles
  {
    hide XferDot;
    if cycles > 0 {
      XferDotIgnoresClock(p, c);
      if XferDot(p).p.Mode() == DataXfer {
        StretchIgnoresClock(XferDot(p).p, c, cycles - 1);
      }
    }
  }

  // ---- Each pass of the loop is a run of dots

  ghost predicate NoBoundaryWithin(p: Ppu, dots: nat)
  {
    p.Mode() != DataXfer && p.lineCycles + dots < (if p.Mode() == OamSearch then OAM_CYCLES else LINE_CYCLES)
  }

  lemma {:induction false} QuietRun(p: Ppu, dots: nat)
    requires p.Valid() && p.enabled && NoBoundaryWithin(p, dots)
    ensures Run(p, dots) == Out(p.(lineCycles := p.lineCycles + dots), [])
    decreases dots
  {
    if dots > 0 {
      assert Dot(p) == Out(p.(lineCycles := p.lineCycles + 1), []);
      QuietRun(Dot(p).p, dots - 1);
    }
  }

  lemma BoundaryRun(p: Ppu, dots: nat)
    requires p.Valid() && p.enabled && dots > 0 && NoBoundaryWithin(p, dots - 1) && !NoBoundaryWithin(p, dots)
    ensures Run(p, dots) == Dot(p.(lineCycles := p.lineCycles + dots - 1))
  {
    hide Run, Dot;
    QuietRun(p, dots - 1);
    RunAppend(p, dots - 1, 1);
    RunOne(Run(p, dots - 1).p);
    var d := Dot(p.(lineCycles := p.lineCycles + dots - 1));
    assert [] + d.o == d.o;
  }

  lemma StartIgnoresClock(p: Ppu, c: nat)
    requires p.Valid() && p.Mode() == OamSearch && c < OAM_CYCLES
    ensures StartTransfer(p.(lineCycles := c)) == StartTransfer(p).(lineCycles := c)
  {
    hide LineObjs;
  }

  lemma SearchIsRun(p: Ppu, cycles: nat)
    requires p.Valid() && p.enabled && p.Mode() == OamSearch && cycles > 0
    ensures var s := SearchSegment(p, cycles); Run(p, s.consumed) == Out(s.p, s.o)
  {
    hide Run, StartTransfer;
    if p.lineCycles + cycles >= OAM_CYCLES {
      StartIgnoresClock(p, OAM_CYCLES - 1);
      BoundaryRun(p, OAM_CYCLES - p.lineCycles);
    } else {
      QuietRun(p, cycles);
    }
  }

  lemma LineEndIsRun(p: Ppu)
    requires p.Valid() && p.enabled && Blanking(p.regs)
    ensures Run(p, LINE_CYCLES - p.lineCycles) == Out(EndOfLine(p).p.(lineCycles := 0), EndOfLine(p).o)
  {
    hide Run, EndOfLine, Pipe.Valid, Regs.OffsetsAgree;
    BoundaryRun(p, LINE_CYCLES - p.lineCycles);
    EndOfLineIgnoresClock(p, LINE_CYCLES - 1);
    LastDot(p.(lineCycles := LINE_CYCLES - 1));
  }

  lemma LastDot(p: Ppu)
    requires p.Valid() && p.enabled && Blanking(p.regs) && p.lineCycles == LINE_CYCLES - 1
    ensures Dot(p) == Out(EndOfLine(p).p.(lineCycles := 0), EndOfLine(p).o)
  {
    hide EndOfLine, Pipe.Valid, Regs.OffsetsAgree;
  }

  lemma BlankIsRun(p: Ppu, cycles: nat)
    requires p.Valid() && p.enabled && Blanking(p.regs) && cycles > 0
    ensures var s := BlankSegment(p, cycles); Run(p, s.consumed) == Out(s.p, s.o)
  {
    hide Run, EndOfLine, Ppu.Valid;
    if p.lineCycles + cycles >= LINE_CYCLES {
      LineEndIsRun(p);
    } else {
      QuietRun(p, cycles);
    }
  }

  lemma XferDotIsDot(p: Ppu)
    requires Healthy(p) && p.enabled && p.Mode() == DataXfer && p.delay == 0
    ensures var d := XferDot(p);
      && Dot(p) == Out(d.p.(lineCycles := p.lineCycles + 1), d.o)
      && p.lineCycles + 1 < LINE_CYCLES && Healthy(Dot(p).p)
      && d.p.delay == 0 && d.p.enabled && d.p.Valid() && (d.p.Mode() == DataXfer || d.p.Mode() == HBlank)
  {
    hide XferDot, Potential, BgReachable, Linked;
    PotentialBounds(p);
    XferHealthy(p);
  }

  lemma {:induction false} StretchIsRun(p: Ppu, cycles: nat)
    requires Healthy(p) && p.enabled && p.Mode() == DataXfer && p.delay == 0
    ensures var s := XferStretch(p, cycles);
      && p.lineCycles + s.consumed < LINE_CYCLES
      && Run(p, s.consumed) == Out(s.p.(lineCycles := p.lineCycles + s.consumed), s.o)
    decreases cycles
  {
    hide XferDot, Dot, Potential, BgReachable, Linked, Ppu.Valid;
    assert p.Valid() && p.lineCycles < LINE_CYCLES by { PotentialBounds(p); }
    if cycles > 0 {
      var d := XferDot(p);
      XferDotIsDot(p);
      if d.p.Mode() == DataXfer {
        StretchIgnoresClock(d.p, p.lineCycles + 1, cycles - 1);
        StretchIsRun(Dot(p).p, cycles - 1);
      } else {
        assert XferStretch(d.p, cycles - 1) == Stretch(d.p, 0, []);
        RunOne(p);
        assert d.o + [] == d.o;
      }
    }
  }

  lemma DelayTickKeepsDot(p: Ppu)
    requires p.Valid() && p.enabled && p.Mode() == DataXfer && p.delay > 0
    ensures Dot(FetchTicked(p.(delay := p.delay - 1))) == Dot(p)
  {
    hide XferDot, FetchTicked;
    assert DelaySpent(p) == DelaySpent(FetchTicked(p.(delay := p.delay - 1)));
  }

  lemma DelayTickKeepsRun(p: Ppu, dots: nat)
    requires p.Valid() && p.enabled && p.Mode() == DataXfer && p.delay > 0 && dots > 0
    ensures Run(FetchTicked(p.(delay := p.delay - 1)), dots) == Run(p, dots)
  {
    hide Dot, FetchTicked;
    DelayTickKeepsDot(p);
  }

  // Ppu::tick on a batch is that many dots.
  lemma {:induction false} BatchIsRun(p: Ppu, cycles: nat)
    requires Healthy(p)
    ensures Batch(p, cycles) == Run(p, cycles)
    decreases cycles, p.delay
  {
    hide Run, Healthy, Ppu.Valid, SearchSegment, BlankSegment, XferStretch, FetchTicked;
    HealthyIsValid(p);
    if !p.enabled {
      DisabledRun(p, cycles);
    } else if cycles == 0 {
      assert Run(p, 0) == Out(p, []) by { EmptyRun(p); }
    } else if p.Mode() == DataXfer && p.delay > 0 {
      var p' := FetchTicked(p.(delay := p.delay - 1));
      DelayTickKeepsHealthy(p);
      BatchIsRun(p', cycles);
      DelayTickKeepsRun(p, cycles);
      assert [] + Batch(p', cycles).o == Batch(p', cycles).o;
    } else {
      var s := Segment(p, cycles);
      SegmentIsRun(p, cycles);
      RunHealthy(p, s.consumed);
      BatchIsRun(s.p, cycles - s.consumed);
      RunAppend(p, s.consumed, cycles - s.consumed);
    }
  }

  lemma HealthyIsValid(p: Ppu)
    requires Healthy(p)
    ensures p.Valid() && (p.delay > 0 ==> p.(delay := p.delay - 1).Valid())
  {
  }

  lemma EmptyRun(p: Ppu)
    requires p.Valid()
    ensures Run(p, 0) == Out(p, [])
  {
  }

  lemma {:induction false} DisabledRun(p: Ppu, dots: nat)
    requires p.Valid() && !p.enabled
    ensures Run(p, dots) == Out(p, [])
    decreases dots
  {
    if dots > 0 {
      DisabledRun(p, dots - 1);
    }
  }

  lemma SegmentIsRun(p: Ppu, cycles: nat)
    requires Healthy(p) && p.enabled && cycles > 0 && !(p.Mode() == DataXfer && p.delay > 0)
    ensures var s := Segment(p, cycles); Run(p, s.consumed) == Out(s.p, s.o)
  {
    hide Run, SearchSegment, BlankSegment, XferStretch, FetchTicked, Linked, BgReachable, Potential;
    if p.Mode() == OamSearch {
      SearchIsRun(p, cycles);
    } else if p.Mode() == DataXfer {
      StretchIsRun(p, cycles);
    } else {
      BlankIsRun(p, cycles);
    }
  }

  // Splitting a batch anywhere changes nothing: same state, same pixels, same requests.
  lemma BatchSplits(p: Ppu, a: nat, b: nat)
    requires Healthy(p)
    ensures var r, s := Batch(p, a), Batch(Batch(p, a).p, b);
      Batch(p, a + b) == Out(s.p, r.o + s.o)
  {
    hide Run, Batch, Linked, Potential;
    BatchIsRun(p, a);
    RunHealthy(p, a);
    BatchIsRun(Run(p, a).p, b);
    BatchIsRun(p, a + b);
    RunAppend(p, a, b);
  }
}
