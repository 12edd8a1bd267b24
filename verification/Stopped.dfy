/** The one write that stops the unit: a line that never ends, reached from power-on. */
module Stopped {
  import opened Registers
  import opened Oam
  import opened PpuCore
  import opened Mode3
  import opened Batching
  import opened Conservation
  import opened History
  import opened Deadline

  // The first columns of a line without window, objects or fine scroll: the background is still off.
  ghost predicate Early(p: Ppu)
  {
    && Healthy(p) && p.enabled && p.Mode() == DataXfer && p.delay == 0 && -8 <= p.x < 0
    && p.regs.scx == 0 && !p.regs.lcdc.winOn && !p.regs.lcdc.objOn
    && p.pipe.f.sprite.None? && !p.pipe.q.bgEnabled
  }

  lemma EarlyDot(p: Ppu)
    requires Early(p) && p.x < -1
    ensures Early(Dot(p).p) && Dot(p).p.x == p.x + 1
  {
    hide Fetch.Ticked, Potential;
    XferHealthy(p);
    FetchCost(p);
    assert XferDot(p) == WindowAndShift(FetchTicked(p));
    assert FetchTicked(p).pipe.f.sprite.None? && !FetchTicked(p).pipe.q.locked;
  }

  lemma EarlyRun(p: Ppu, n: nat)
    requires Early(p) && p.x + n < 0
    ensures p.Valid()
    ensures Early(Run(p, n).p) && Run(p, n).p.x == p.x + n
    decreases n
  {
    hide Early, Dot;
    EarlyIs(p);
    if n > 0 {
      EarlyDot(p);
      EarlyRun(Dot(p).p, n - 1);
    }
  }

  lemma EarlyIs(p: Ppu)
    requires Early(p)
    ensures p.Valid() && -8 <= p.x < 0 && Healthy(p)
  {
  }

  lemma EarlyStart(p: Ppu)
    requires LineStart(p) && p.regs.scx == 0 && !p.regs.lcdc.winOn && !p.regs.lcdc.objOn
    ensures var q := StartTransfer(p).(lineCycles := OAM_CYCLES);
      Early(q) && q.x == -8 && Run(p, OAM_CYCLES).p == q
  {
    hide LineObjs, Potential, Run;
    StartBegins(p);
    SearchConserves(p);
    TransferStart(p);
  }

  // Writing 5 to SCX at column -4 moves the column that would switch the background on to -5.
  lemma ScrollMissed(p: Ppu)
    requires Early(p) && p.x == -4
    ensures Missed(Written(p, SCX_ADDR, 5))
  {
    hide Linked, Potential;
    WriteKeepsPipe(p, SCX_ADDR, 5);
  }

  // Four dots into the first line, the unit is in order, and the write stops it.
  lemma LineCanStop(p: Ppu)
    requires LineStart(p) && p.regs.scx == 0 && !p.regs.lcdc.winOn && !p.regs.lcdc.objOn
    ensures var r := Run(p, OAM_CYCLES + 4).p; Healthy(r) && Missed(Written(r, SCX_ADDR, 5))
  {
    hide Run, Written, Early, Missed, StartTransfer;
    EarlyStart(p);
    var q := Run(p, OAM_CYCLES).p;
    EarlyRun(q, 4);
    RunAppend(p, OAM_CYCLES, 4);
    var r := Run(q, 4).p;
    EarlyIs(r);
    ScrollMissed(r);
  }

  // LCD and background on, the first 84 cycles, and the write.
  const STOPPING := [Event.Write(LCDC_ADDR, 0x81), Tick(OAM_CYCLES + 4), Event.Write(SCX_ADDR, 5)]

  lemma SwitchedOnStarts(p: Ppu)
    requires PoweredOn(p) && p.regs == POWER_ON.(stat := p.regs.stat) && p.lineCycles == 0 && !p.pipe.q.bgEnabled
    ensures var q := Written(p, LCDC_ADDR, 0x81);
      LineStart(q) && q.regs.scx == 0 && !q.regs.lcdc.winOn && !q.regs.lcdc.objOn
  {
  }

  // From power-on, three events lead to a line that no number of cycles ends.
  lemma StopsForGood(p: Ppu, n: nat)
    requires PoweredOn(p) && p.regs == POWER_ON.(stat := p.regs.stat) && p.lineCycles == 0 && !p.pipe.q.bgEnabled
    ensures var q := AfterAll(p, STOPPING); Missed(q) && Run(q, n).p.Mode() == DataXfer
  {
    hide Batch, Run, Written, Missed, LineStart, PoweredOn, Healthy;
    PowerOnIsHealthy(p);
    HealthyIsValid(p);
    var q := Written(p, LCDC_ADDR, 0x81);
    SwitchedOnStarts(p);
    LineStartIsHealthy(q);
    BatchIsRun(q, OAM_CYCLES + 4);
    LineCanStop(q);
    var s := Written(Batch(q, OAM_CYCLES + 4).p, SCX_ADDR, 5);
    StoppingIs(p);
    NeverEnds(s, n);
    MissedMode(Run(s, n).p);
  }

  lemma LineStartIsHealthy(p: Ppu)
    requires LineStart(p)
    ensures p.Valid() && Healthy(p)
  {
  }

  lemma MissedMode(p: Ppu)
    requires Missed(p)
    ensures p.Mode() == DataXfer && p.Valid()
  {
  }

  lemma StoppingIs(p: Ppu)
    requires p.Valid()
    ensures AfterAll(p, STOPPING)
         == Written(Batch(Written(p, LCDC_ADDR, 0x81), OAM_CYCLES + 4).p, SCX_ADDR, 5)
  {
    hide Batch, Written;
    var p1 := Written(p, LCDC_ADDR, 0x81);
    var p2 := Batch(p1, OAM_CYCLES + 4).p;
    assert STOPPING[1..] == [Tick(OAM_CYCLES + 4), Event.Write(SCX_ADDR, 5)];
    assert STOPPING[1..][1..] == [Event.Write(SCX_ADDR, 5)];
    assert STOPPING[1..][1..][1..] == [];
    assert AfterAll(p2, STOPPING[1..][1..]) == AfterAll(Written(p2, SCX_ADDR, 5), []);
  }
}
