/** When interrupts are taken, which one, and how EI and DI delay or fail to prevent it. */
module InterruptDiscipline {
  import opened Interrupts
  import opened Opcodes
  import opened Cpu

  // ---- Which interrupt

  lemma RaisedIsPending(l: Lines, t: IrqType)
    requires l.Raised(t)
    ensures l.IsPending() && t != ItNone
  {
    var r := l.requested & l.ie;
    assert r == 0 ==> r & BitOf(t) == 0;
    assert r & BitOf(ItNone) == 0;
  }

  // An interrupt is taken between instructions exactly when the master enable is on and one of the
  // five sources is requested and enabled. (Requests on the other three bits only end a HALT.)
  lemma DispatchExactly(c: CpuState)
    ensures Dispatches(c) <==> c.curState == 0 && c.ic.enabled && exists t :: c.ic.Raised(t)
  {
    PendingIsLowest(c.ic, 0);
    if exists t :: c.ic.Raised(t) {
      var t :| c.ic.Raised(t);
      RaisedIsPending(c.ic, t);
      assert NumberOf(t) < 5;
    }
    if c.ic.Pending() != ItNone {
      RaisedIsPending(c.ic, c.ic.Pending());
    }
  }

  // The bits of IE and IF: VBlank, LCD status, timer, serial, joypad.
  const SOURCES: seq<bv8> := [0x01, 0x02, 0x04, 0x08, 0x10]

  // Bit i is the lowest of the five that is set in both.
  ghost predicate Lowest(requested: bv8, ie: bv8, i: nat)
    requires i < 5
  {
    requested & ie & SOURCES[i] != 0 && forall j: nat :: j < i ==> requested & ie & SOURCES[j] == 0
  }

  lemma SourceBit(t: IrqType)
    requires t != ItNone
    ensures NumberOf(t) < 5 && BitOf(t) == SOURCES[NumberOf(t)]
  {
  }

  // What a device requests is its own bit of IF.
  lemma RequestBits(l: Lines)
    ensures l.Request(ItVBlank).requested == l.requested | 0x01
    ensures l.Request(ItLcdcStatus).requested == l.requested | 0x02
    ensures l.Request(ItTimerOverflow).requested == l.requested | 0x04
  {
  }

  lemma RaisedBit(l: Lines, t: IrqType)
    requires t != ItNone
    ensures NumberOf(t) < 5 && (l.Raised(t) <==> l.requested & l.ie & SOURCES[NumberOf(t)] != 0)
  {
    SourceBit(t);
  }

  lemma Numbered(i: nat)
    requires i < 5
    ensures NumberOf(TypeOf(i)) == i && TypeOf(i) != ItNone
  {
  }

  lemma LowestIsPending(l: Lines, i: nat)
    requires i < 5 && l.enabled && Lowest(l.requested, l.ie, i)
    ensures l.Pending() == TypeOf(i)
  {
    hide BitOf, Lines.Raised, Lines.PendingFrom, TypeOf;
    Numbered(i);
    PendingIsLowest(l, 0);
    RaisedBit(l, TypeOf(i));
    var t := l.PendingFrom(0);
    if t != ItNone {
      RaisedBit(l, t);
    }
    SameNumber(t, TypeOf(i));
  }

  lemma SameNumber(t: IrqType, u: IrqType)
    requires u != ItNone
    ensures NumberOf(t) == NumberOf(u) ==> t == u
    ensures t == ItNone ==> NumberOf(u) < NumberOf(t)
  {
  }

  lemma Acknowledged(l: Lines, i: nat)
    requires i < 5
    ensures l.Clear(TypeOf(i)) == l.(requested := l.requested & !SOURCES[i]) && Vector(TypeOf(i)) == 0x40 + 8 * i
  {
    Numbered(i);
    SourceBit(TypeOf(i));
  }

  lemma HandlerEntered(c: CpuState, i: nat)
    requires c.Valid() && i < 5
    ensures TypeOf(i) != ItNone
    ensures var r := AtHandler(c, TypeOf(i));
      && r.pc == 0x40 + 8 * i && r.halted == c.halted && r.curState == c.curState
      && r.ic == Lines(false, c.ic.ie, c.ic.requested & !SOURCES[i])
  {
    hide Push16, Lines.Clear, Vector, TypeOf, SOURCES;
    Numbered(i);
    Acknowledged(c.ic.(enabled := false), i);
  }

  lemma ImeKeepsLines(c: CpuState)
    requires c.Valid()
    ensures var c1 := ImeStep(c); c1.Valid() && c1.ic.ie == c.ic.ie && c1.ic.requested == c.ic.requested
  {
  }

  lemma DispatchNeeds(c: CpuState)
    requires Dispatches(c)
    ensures c.curState == 0 && c.ic.enabled
  {
  }

  // Taking an interrupt: with i the lowest bit set in both IE and IF, the processor goes on at 0x40 + 8 i,
  // that request and no other is dropped, and the master enable goes off.
  lemma DispatchEffect(c: CpuState, e: Effect, i: nat)
    requires c.Valid() && |e.mem| == MEM_SIZE && Dispatches(ImeStep(c)) && i < 5
    requires Lowest(c.ic.requested, c.ic.ie, i)
    ensures var r := Tick(c, e);
      && r.cycles == 20 && r.c.pc == 0x40 + 8 * i && !r.c.ic.enabled && !r.c.halted && r.c.curState == 0
      && r.c.ic.ie == c.ic.ie && r.c.ic.requested == c.ic.requested & !SOURCES[i]
  {
    hide Run, AtHandler, TypeOf, Lowest, Lines.Pending, Dispatches, SOURCES, ImeStep, Woken;
    var c1 := ImeStep(c);
    DispatchNeeds(c1);
    ImeKeepsLines(c);
    Numbered(i);
    LowestIsPending(c1.ic, i);
    HandlerEntered(c1.(halted := false), i);
  }

  // There is such a bit whenever an interrupt is taken: it is taken between instructions, exactly when the
  // master enable is on and IE and IF share one of their lower five bits.
  lemma DispatchBits(c: CpuState)
    ensures Dispatches(c) <==> c.curState == 0 && c.ic.enabled && c.ic.requested & c.ic.ie & 0x1F != 0
    ensures Dispatches(c) ==> exists i: nat :: i < 5 && Lowest(c.ic.requested, c.ic.ie, i)
  {
    hide Lowest, Lines.Raised;
    DispatchExactly(c);
    FiveBits(c.ic);
    if c.ic.requested & c.ic.ie & 0x1F != 0 {
      var i := LowestBit(c.ic.requested, c.ic.ie);
    }
  }

  lemma FiveBits(l: Lines)
    ensures (exists t :: l.Raised(t)) <==> l.requested & l.ie & 0x1F != 0
  {
    var a := l.requested & l.ie;
    assert l.Raised(ItVBlank) == (a & 0x01 != 0) && l.Raised(ItLcdcStatus) == (a & 0x02 != 0);
    assert l.Raised(ItTimerOverflow) == (a & 0x04 != 0) && l.Raised(ItSerialComplete) == (a & 0x08 != 0);
    assert l.Raised(ItPio) == (a & 0x10 != 0) && !l.Raised(ItNone);
    LowFive(a);
  }

  lemma LowFive(a: bv8)
    ensures a & 0x1F != 0 <==> a & 0x01 != 0 || a & 0x02 != 0 || a & 0x04 != 0 || a & 0x08 != 0 || a & 0x10 != 0
  {
  }

  lemma LowestBit(requested: bv8, ie: bv8) returns (i: nat)
    requires requested & ie & 0x1F != 0
    ensures i < 5 && Lowest(requested, ie, i)
  {
    var a := requested & ie;
    LowFive(a);
    i := if a & 0x01 != 0 then 0 else if a & 0x02 != 0 then 1 else if a & 0x04 != 0 then 2
         else if a & 0x08 != 0 then 3 else 4;
  }

  // ---- The master enable

  // What a handler does to a pending EI and to the master enable.
  ghost predicate SetsControl(c: CpuState, h: Handler, t: CpuState)
  {
    && t.enablePending == (c.enablePending || h.Ei?)
    && t.enableDelay == (c.enableDelay || (h.Ei? && !c.enablePending))
    && t.ic.enabled == (if h.Reti? then true else if h.Di? then false else c.ic.enabled)
  }

  lemma SingleControl(c: CpuState, o: Opcode, e: Effect)
    requires c.Valid() && |e.mem| == MEM_SIZE && !MultiTick(o.handler)
    ensures SetsControl(c, o.handler, Execute(c, o, e).c)
  {
    hide Push16, With, Holds;
    WithKeeps(c, e);
  }

  lemma StagedControl(c: CpuState, o: Opcode, e: Effect)
    requires c.Valid() && |e.mem| == MEM_SIZE && o.handler.Staged?
    ensures SetsControl(c, o.handler, Execute(c, o, e).c)
  {
    hide With;
    WithKeeps(c, e);
  }

  lemma FlowControl(c: CpuState, o: Opcode, e: Effect)
    requires c.Valid() && |e.mem| == MEM_SIZE && MultiTick(o.handler) && !o.handler.Staged?
    ensures SetsControl(c, o.handler, Execute(c, o, e).c)
  {
    hide JumpTick, RetTick, CallTick, RetIfTick, JumpIfTick, Push16, With, Holds;
  }

  lemma ExecuteControl(c: CpuState, o: Opcode, e: Effect)
    requires c.Valid() && |e.mem| == MEM_SIZE
    ensures SetsControl(c, o.handler, Execute(c, o, e).c)
  {
    hide Execute, SetsControl, MultiTick;
    if o.handler.Staged? {
      StagedControl(c, o, e);
    } else if MultiTick(o.handler) {
      FlowControl(c, o, e);
    } else {
      SingleControl(c, o, e);
    }
  }

  // A tick that neither takes an interrupt nor finds the processor halted.
  lemma RunningTick(c: CpuState, m: Moment)
    requires c.Valid() && m.Valid()
    requires var c1 := ImeStep(Seen(c, m.world)); !Dispatches(c1) && !Woken(c1).halted
    ensures var c1 := ImeStep(Seen(c, m.world));
      var o := if c.curState == 0 then OpcodeAt(c, m.world) else Table(c.isCB, c.curOpcode);
      var t := Step(c, m).c;
      && t.enablePending == (c1.enablePending || o.handler.Ei?)
      && t.enableDelay == (c1.enableDelay || (o.handler.Ei? && !c1.enablePending))
      && t.ic.enabled == (if o.handler.Reti? then true else if o.handler.Di? then false else c1.ic.enabled)
  {
    hide Execute, Table;
    var c2 := Woken(ImeStep(Seen(c, m.world)));
    var c3 := if c2.curState == 0 then Fetched(c2) else c2;
    ExecuteControl(c3, Table(c3.isCB, c3.curOpcode), m.effect);
  }

  // ---- The instruction after EI

  // EI has just been executed with the master enable off.
  ghost predicate JustEnabled(c: CpuState)
  {
    c.Valid() && c.curState == 0 && c.enablePending && c.enableDelay && !c.ic.enabled && !c.halted
  }

  lemma EiLeads(c: CpuState, m: Moment)
    requires c.Valid() && m.Valid() && Fetches(c, m) && OpcodeAt(c, m.world).handler == Ei
    requires !c.enablePending && !c.ic.enabled
    ensures JustEnabled(Step(c, m).c)
  {
    hide BaseOp, ExtOp;
    RunningTick(c, m);
  }

  // The first tick after EI takes no interrupt, whatever is requested: it fetches.
  lemma FetchesAfterEi(c: CpuState, m: Moment)
    requires JustEnabled(c) && m.Valid()
    ensures Fetches(c, m)
  {
  }

  // While the instruction after EI runs, the enable stays pending and no interrupt is taken.
  lemma {:induction false} RunsAfterEi(c: CpuState, ms: seq<Moment>)
    requires JustEnabled(c) && AllValid(ms) && 1 <= |ms| && |ms| <= |Plan(c, ms[0].world)|
    ensures var t, o := Steps(c, ms).c, OpcodeAt(c, ms[0].world);
      && t.enablePending && !t.enableDelay && t.ic.enabled == o.handler.Reti?
    ensures AllValid(ms[..|ms| - 1])
    ensures !Dispatches(ImeStep(Seen(Steps(c, ms[..|ms| - 1]).c, ms[|ms| - 1].world)))
    decreases |ms|
  {
    hide Step, Schedule, Table, Taken, Fetched;
    var front, last := ms[..|ms| - 1], ms[|ms| - 1];
    FetchesAfterEi(c, ms[0]);
    if |ms| == 1 {
      assert front == [];
      FirstAfterEi(c, ms[0]);
    } else {
      RunsAfterEi(c, front);
      InstructionRuns(c, front);
      RunningTick(Steps(c, front).c, last);
    }
  }

  lemma FirstAfterEi(c: CpuState, m: Moment)
    requires JustEnabled(c) && m.Valid()
    ensures var t, o := Step(c, m).c, OpcodeAt(c, m.world);
      && t.enablePending && !t.enableDelay && t.ic.enabled == o.handler.Reti?
      && !Dispatches(ImeStep(Seen(c, m.world)))
  {
    hide Execute, Table;
    RunningTick(c, m);
  }

  // EI takes effect after exactly one more instruction, another EI included: no tick of that
  // instruction takes an interrupt, and at the next tick the master enable is on, so that a raised
  // source is taken there and then.
  lemma EiDelaysOneInstruction(c: CpuState, ms: seq<Moment>, next: Moment)
    requires JustEnabled(c) && AllValid(ms) && next.Valid() && 1 <= |ms| && |ms| == |Plan(c, ms[0].world)|
    ensures forall k :: 0 <= k < |ms| ==>
              (AllValid(ms[..k]) && !Dispatches(ImeStep(Seen(Steps(c, ms[..k]).c, ms[k].world))))
    ensures var c1 := ImeStep(Seen(Steps(c, ms).c, next.world));
      c1.ic.enabled && c1.curState == 0 && (Dispatches(c1) <==> exists t :: c1.ic.Raised(t))
  {
    hide Steps, Schedule, Table, Taken, Dispatches, ImeStep;
    forall k | 0 <= k < |ms|
      ensures AllValid(ms[..k]) && !Dispatches(ImeStep(Seen(Steps(c, ms[..k]).c, ms[k].world)))
    {
      RunsAfterEi(c, ms[..k + 1]);
      assert ms[..k + 1][..k] == ms[..k];
    }
    RunsAfterEi(c, ms);
    FetchesAfterEi(c, ms[0]);
    InstructionCycles(c, ms);
    EnabledNext(Steps(c, ms).c, next);
  }

  lemma EnabledNext(c: CpuState, m: Moment)
    requires c.Valid() && m.Valid() && c.curState == 0 && c.enablePending && !c.enableDelay
    ensures var c1 := ImeStep(Seen(c, m.world));
      c1.ic.enabled && c1.curState == 0 && (Dispatches(c1) <==> exists t :: c1.ic.Raised(t))
  {
    DispatchExactly(ImeStep(Seen(c, m.world)));
  }

  // ---- DI

  // A delay only ever belongs to a pending enable.
  lemma DelayMeansPending(c: CpuState, m: Moment)
    requires c.Valid() && m.Valid() && (c.enableDelay ==> c.enablePending)
    ensures var t := Step(c, m).c; t.enableDelay ==> t.enablePending
  {
    hide Execute, Table, Dispatches, Push16, Lines.Pending, Lines.Clear, Fetched;
    var c1 := ImeStep(Seen(c, m.world));
    if !Dispatches(c1) && !Woken(c1).halted {
      RunningTick(c, m);
    }
  }

  // DI keeps interrupts off at the next tick if and only if it does not directly follow an EI: the
  // pending enable is not cancelled.
  lemma DiExactly(c: CpuState, m: Moment, next: Moment)
    requires c.Valid() && m.Valid() && next.Valid() && Fetches(c, m) && OpcodeAt(c, m.world).handler == Di
    requires c.enableDelay ==> c.enablePending
    ensures !ImeStep(Seen(Step(c, m).c, next.world)).ic.enabled <==> !c.enableDelay
  {
    hide Execute, Table, Dispatches;
    RunningTick(c, m);
    DiIsShort(c, m);
  }

  lemma DiIsShort(c: CpuState, m: Moment)
    requires c.Valid() && m.Valid() && Fetches(c, m) && OpcodeAt(c, m.world).handler == Di
    ensures Step(c, m).c.curState == 0
  {
    hide BaseOp, ExtOp;
  }

  // ---- HALT

  lemma NoneWaiting(c: CpuState)
    requires c.ic.requested & c.ic.ie == 0
    ensures !Dispatches(c) && Woken(c) == c
  {
    hide Lines.Pending;
  }

  lemma SomeWaiting(c: CpuState)
    requires c.curState == 0 && c.ic.requested & c.ic.ie != 0
    ensures !Woken(c).halted && (!c.ic.enabled ==> !Dispatches(c))
  {
    hide Lines.Pending;
  }

  lemma ImeKeepsRest(c: CpuState)
    ensures var c1 := ImeStep(c);
      && c1.halted == c.halted && c1.curState == c.curState && c1.pc == c.pc && c1.sp == c.sp && c1.f == c.f
      && (!c.enablePending ==> c1 == c)
  {
  }

  // While no bit is set in both IE and IF, a halted processor stays halted and passes four cycles, its
  // registers as they were.
  lemma HaltStays(c: CpuState, m: Moment)
    requires c.Valid() && m.Valid() && c.halted && c.curState == 0 && m.world.requested & m.world.ie == 0
    ensures var t := Step(c, m);
      t.cycles == 4 && t.c.halted && t.c.curState == 0 && t.c.pc == c.pc && t.c.sp == c.sp && t.c.f == c.f
  {
    hide Execute, Table, Dispatched, Dispatches, Woken, ImeStep, Fetched;
    var d := Seen(c, m.world);
    ImeKeepsLines(d);
    ImeKeepsRest(d);
    NoneWaiting(ImeStep(d));
  }

  // Any such bit ends the HALT, with the master enable on or off: the tick takes an interrupt or fetches.
  lemma HaltEnds(c: CpuState, m: Moment)
    requires c.Valid() && m.Valid() && c.curState == 0 && m.world.requested & m.world.ie != 0
    ensures Dispatches(ImeStep(Seen(c, m.world))) || Fetches(c, m)
    ensures !c.ic.enabled && !c.enablePending ==> Fetches(c, m)
  {
    hide Dispatches, Woken, ImeStep;
    var d := Seen(c, m.world);
    ImeKeepsLines(d);
    ImeKeepsRest(d);
    SomeWaiting(ImeStep(d));
  }
}
