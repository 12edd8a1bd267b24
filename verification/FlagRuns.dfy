/** F over runs of the processor: its low nibble, and the flags an instruction may change. */
module FlagRuns {
  import opened Bytes
  import opened Interrupts
  import opened FlagByte
  import opened FlagScripts
  import opened Opcodes
  import opened Cpu

  // ---- One tick

  // The handlers whose effect is a parameter.
  predicate Effective(h: Handler)
  {
    h.Simple? || h.JumpRel? || h.Staged?
  }

  lemma ExecuteWrites(c: CpuState, o: Opcode, e: Effect)
    requires c.Valid() && |e.mem| == MEM_SIZE
    ensures Execute(c, o, e).c.f == if Effective(o.handler) then AllStored(c.f, e.flagWrites) else c.f
  {
    hide Execute, AllStored;
    if Effective(o.handler) {
      EffectWrites(c, o, e);
    } else {
      FlowWritesNothing(c, o, e);
    }
  }

  lemma EffectWrites(c: CpuState, o: Opcode, e: Effect)
    requires c.Valid() && |e.mem| == MEM_SIZE && Effective(o.handler)
    ensures Execute(c, o, e).c.f == AllStored(c.f, e.flagWrites)
  {
    hide AllStored, Holds;
  }

  lemma FlowWritesNothing(c: CpuState, o: Opcode, e: Effect)
    requires c.Valid() && |e.mem| == MEM_SIZE && !Effective(o.handler)
    ensures Execute(c, o, e).c.f == c.f
  {
    hide Push8, Holds, JumpTick, CallTick, RetTick;
    JumpKeepsF(c);
    RetKeepsF(c);
    CallKeepsF(c, true);
    CallKeepsF(c, false);
  }

  lemma JumpKeepsF(c: CpuState)
    requires c.Valid()
    ensures JumpTick(c).c.f == c.f
  {
  }

  lemma RetKeepsF(c: CpuState)
    requires c.Valid()
    ensures RetTick(c).c.f == c.f
  {
  }

  lemma CallKeepsF(c: CpuState, branch: bool)
    requires c.Valid()
    ensures CallTick(c, branch).c.f == c.f
  {
    hide Push8;
  }

  // The state in which the handler of a tick runs, if one does.
  ghost function Fetching(c: CpuState, m: Moment): (c': CpuState)
    requires m.Valid()
    ensures c'.Valid()
  {
    var c1 := Woken(ImeStep(Seen(c, m.world)));
    if c1.curState == 0 then Fetched(c1) else c1
  }

  ghost predicate Runs(c: CpuState, m: Moment)
    requires m.Valid()
  {
    var c1 := ImeStep(Seen(c, m.world));
    !Dispatches(c1) && !Woken(c1).halted
  }

  lemma FetchingIs(c: CpuState, m: Moment)
    requires c.Valid() && m.Valid()
    ensures var c2 := Fetching(c, m);
      && c2.f == c.f && c2.curState == c.curState
      && (c.curState != 0 ==> c2.isCB == c.isCB && c2.curOpcode == c.curOpcode)
      && (c.curState == 0 ==> c2.isCB == Fetched(Seen(c, m.world)).isCB
                              && c2.curOpcode == Fetched(Seen(c, m.world)).curOpcode)
  {
    hide Fetched, Woken, ImeStep;
    var d := Seen(c, m.world);
    WokenKeeps(d);
    FetchedSame(d, Woken(ImeStep(d)));
    OpcodeKept(d);
  }

  lemma OpcodeKept(c: CpuState)
    ensures Woken(ImeStep(c)).isCB == c.isCB && Woken(ImeStep(c)).curOpcode == c.curOpcode
  {
  }

  lemma StepRuns(c: CpuState, m: Moment)
    requires c.Valid() && m.Valid()
    ensures Runs(c, m) ==>
      var c2 := Fetching(c, m); Step(c, m) == Execute(c2, Table(c2.isCB, c2.curOpcode), m.effect)
    ensures !Runs(c, m) ==> Step(c, m).c.f == c.f
  {
    hide Execute, Table, Fetched, Push16, Lines.Pending, Lines.Clear;
  }

  // ---- The low nibble over any run

  lemma LowNibbleTick(c: CpuState, m: Moment)
    requires c.Valid() && m.Valid() && c.f & 0x0f == 0
    ensures Step(c, m).c.f & 0x0f == 0
  {
    hide Step, Execute, Table, AllStored, Fetching, Runs, Effective;
    StepRuns(c, m);
    if Runs(c, m) {
      var c2 := Fetching(c, m);
      FetchingIs(c, m);
      ExecuteWrites(c2, Table(c2.isCB, c2.curOpcode), m.effect);
      LowNibbleStaysZero(c.f, m.effect.flagWrites);
    }
  }

  // Whatever instructions run, whatever they read and whatever devices and interrupts do: the low nibble
  // of F stays zero, in the middle of instructions too.
  lemma {:induction false} LowNibbleAlways(c: CpuState, ms: seq<Moment>)
    requires c.Valid() && AllValid(ms) && c.f & 0x0f == 0
    ensures Steps(c, ms).c.f & 0x0f == 0
    decreases |ms|
  {
    hide Step;
    if ms != [] {
      LowNibbleAlways(c, ms[..|ms| - 1]);
      LowNibbleTick(Steps(c, ms[..|ms| - 1]).c, ms[|ms| - 1]);
    }
  }

  // ---- The flags an instruction may change

  // What a handler writes into F is what the script of its opcode allows; a staged handler writes in its
  // last stage only.
  ghost predicate Honest(c: CpuState, e: Effect)
  {
    var o := Table(c.isCB, c.curOpcode);
    var early := o.handler.Staged? && c.curState + 1 < |o.handler.costs|;
    Conforms(e.flagWrites, if early then [] else Script(c.isCB, c.curOpcode))
  }

  ghost predicate HonestTick(c: CpuState, m: Moment)
    requires m.Valid()
  {
    Runs(c, m) ==> Honest(Fetching(c, m), m.effect)
  }

  lemma NoneSpared(b: bv8, ws: seq<FlagWrite>, touched: Flags)
    requires Conforms(ws, [])
    ensures AllStored(b, ws) == b && Spared(Tested(b), Tested(b), touched)
  {
    hide Tested;
  }

  lemma TickSpares(c: CpuState, m: Moment)
    requires c.Valid() && m.Valid() && c.f & 0x0f == 0 && HonestTick(c, m)
    ensures var c2 := Fetching(c, m);
      Spared(Tested(c.f), Tested(Step(c, m).c.f), Touches(Script(c2.isCB, c2.curOpcode)))
  {
    hide Step, Execute, Table, AllStored, Fetching, Runs, Effective, Tested, Script, Touches, Conforms;
    var c2 := Fetching(c, m);
    var o, ws := Table(c2.isCB, c2.curOpcode), m.effect.flagWrites;
    StepRuns(c, m);
    FetchingIs(c, m);
    if Runs(c, m) {
      ExecuteWrites(c2, o, m.effect);
      if Effective(o.handler) {
        if o.handler.Staged? && c2.curState + 1 < |o.handler.costs| {
          NoneSpared(c.f, ws, Touches(Script(c2.isCB, c2.curOpcode)));
        } else {
          ScriptSpares(c.f, c2.isCB, c2.curOpcode, ws);
        }
      }
    }
  }

  // Every tick so far wrote what its script allows.
  ghost predicate AllHonest(c: CpuState, ms: seq<Moment>)
    requires c.Valid() && AllValid(ms)
    decreases |ms|
  {
    ms != [] ==>
      AllHonest(c, ms[..|ms| - 1]) && HonestTick(Steps(c, ms[..|ms| - 1]).c, ms[|ms| - 1])
  }

  lemma SparedChain(f: Flags, g: Flags, h: Flags, touched: Flags)
    requires Spared(f, g, touched) && Spared(g, h, touched)
    ensures Spared(f, h, touched)
  {
  }

  lemma FetchesIdle(c: CpuState, m: Moment)
    requires m.Valid() && Fetches(c, m)
    ensures c.curState == 0
  {
  }

  // From its fetch on, an instruction leaves alone every flag that its opcode's script does not name, in
  // however many ticks it runs.
  lemma {:induction false} InstructionSpares(c: CpuState, ms: seq<Moment>)
    requires c.Valid() && AllValid(ms) && 1 <= |ms| && Fetches(c, ms[0]) && |ms| <= |Plan(c, ms[0].world)|
    requires c.f & 0x0f == 0 && AllHonest(c, ms)
    ensures var c1 := Fetched(Seen(c, ms[0].world));
      Spared(Tested(c.f), Tested(Steps(c, ms).c.f), Touches(Script(c1.isCB, c1.curOpcode)))
    decreases |ms|
  {
    hide Step, Table, Schedule, Fetched, Fetches, Taken, Fetching, HonestTick, Tested, Touches, Script, Spared;
    var front, last := ms[..|ms| - 1], ms[|ms| - 1];
    var t := Steps(c, front).c;
    LowNibbleAlways(c, front);
    TickSpares(t, last);
    FetchingIs(t, last);
    if |ms| == 1 {
      assert front == [];
      FetchesIdle(c, ms[0]);
    } else {
      InstructionSpares(c, front);
      InstructionRuns(c, front);
      var c1 := Fetched(Seen(c, ms[0].world));
      SparedChain(Tested(c.f), Tested(t.f), Tested(Steps(c, ms).c.f), Touches(Script(c1.isCB, c1.curOpcode)));
    }
  }

  // INC and DEC leave the carry alone, 16-bit additions Z, and DAA N; register loads change no flag.
  lemma WhatBaseSpares(op: Byte)
    ensures 0x40 <= op < 0x80 ==> Touches(BaseScript(op)) == NONE
    ensures op < 0x40 && (op % 8 == 4 || op % 8 == 5) ==> Touches(BaseScript(op)) == Flags(true, true, true, false)
    ensures op < 0x40 && op % 16 == 9 ==> Touches(BaseScript(op)) == Flags(false, true, true, true)
    ensures op == 0x27 ==> Touches(BaseScript(op)) == Flags(true, false, true, true)
  {
    hide Touches;
    NoDeeds();
    ThreeDeeds(Decides(Z), Decides(H), Does(ClearFlag(N)));
    ThreeDeeds(Decides(Z), Decides(H), Does(SetFlag(N)));
    ThreeDeeds(Does(ClearFlag(N)), Decides(C), Decides(H));
    ThreeDeeds(MaySet(C), Does(ClearFlag(H)), Decides(Z));
  }

  // BIT leaves the carry alone; RES and SET change no flag.
  lemma WhatExtSpares(op: Byte)
    ensures 0x40 <= op < 0x80 ==> Touches(ExtScript(op)) == Flags(true, true, true, false)
    ensures op >= 0x80 ==> Touches(ExtScript(op)) == NONE
  {
    hide Touches;
    NoDeeds();
    ThreeDeeds(Does(ClearFlag(N)), Does(SetFlag(H)), Decides(Z));
  }

  lemma NoDeeds()
    ensures Touches([]) == NONE
  {
  }

  lemma ThreeDeeds(a: Deed, b: Deed, c: Deed)
    ensures Touches([a, b, c]) == Both(DeedTouches(a), Both(DeedTouches(b), DeedTouches(c)))
  {
    assert [c][1..] == [];
    assert Touches([c]) == DeedTouches(c);
    assert [b, c][1..] == [c];
    assert Touches([b, c]) == Both(DeedTouches(b), DeedTouches(c));
    assert [a, b, c][1..] == [b, c];
  }
}
