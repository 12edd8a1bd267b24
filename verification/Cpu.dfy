/** The processor's step machine: interrupts, fetching, and instructions that span several ticks. */
module Cpu {
  import opened Bytes
  import opened Interrupts
  import opened FlagByte
  import opened Opcodes

  const MEM_SIZE := 0x1_0000
  const DISPATCH_CYCLES := 20
  const HALT_CYCLES := 4

  datatype CpuState = CpuState(pc: Word, sp: Word, f: bv8, mem: seq<Byte>,
                               curState: nat, cache: Word, isCB: bool, curOpcode: Byte,
                               halted: bool, enablePending: bool, enableDelay: bool, ic: Lines) {
    predicate Valid()
    {
      |mem| == MEM_SIZE
    }
  }

  // What a handler of one tick, or one stage of a staged one, does: anything to registers and memory, and
  // to F whatever the flag macros and POP AF can do.
  datatype Effect = Effect(pc: Word, sp: Word, flagWrites: seq<FlagWrite>, mem: seq<Byte>, ie: bv8, requested: bv8)

  function With(c: CpuState, e: Effect): CpuState
  {
    c.(pc := e.pc, sp := e.sp, f := AllStored(c.f, e.flagWrites), mem := e.mem,
       ic := Lines(c.ic.enabled, e.ie, e.requested))
  }

  // Internal and upper RAM, where a written byte stays.
  predicate Ram(addr: Word)
  {
    0xC000 <= addr < 0xE000 || 0xFF80 <= addr < 0xFFFF
  }

  function Store(mem: seq<Byte>, addr: Word, val: Byte): (m: seq<Byte>)
    requires |mem| == MEM_SIZE
    ensures |m| == MEM_SIZE
  {
    if Ram(addr) then mem[addr := val] else mem
  }

  function Inc(w: Word): Word
  {
    (w + 1) % 0x1_0000
  }

  function Dec16(w: Word): Word
  {
    (w - 1) % 0x1_0000
  }

  function WordOf(low: Byte, high: Byte): Word
  {
    low + 0x100 * high
  }

  function Push8(c: CpuState, val: Byte): (c': CpuState)
    requires c.Valid()
    ensures c'.Valid() && c' == c.(sp := c'.sp, mem := c'.mem)
  {
    c.(sp := Dec16(c.sp), mem := Store(c.mem, Dec16(c.sp), val))
  }

  function Push16(c: CpuState, val: Word): (c': CpuState)
    requires c.Valid()
    ensures c'.Valid() && c' == c.(sp := c'.sp, mem := c'.mem)
  {
    Push8(Push8(c, val / 0x100), val % 0x100)
  }

  datatype Ticked = Ticked(c: CpuState, cycles: nat)

  // ---- The top of a tick

  // A pending EI takes effect at the start of the second instruction after it.
  function ImeStep(c: CpuState): (c': CpuState)
    ensures c.Valid() ==> c'.Valid()
  {
    if c.curState != 0 || !c.enablePending then c
    else if c.enableDelay then c.(enableDelay := false)
    else c.(enablePending := false, ic := c.ic.(enabled := true))
  }

  predicate Dispatches(c: CpuState)
  {
    c.curState == 0 && c.ic.IsPending() && c.ic.enabled && c.ic.Pending() != ItNone
  }

  // Entering the handler of an interrupt.
  function AtHandler(c: CpuState, t: IrqType): (c': CpuState)
    requires c.Valid() && t != ItNone
    ensures c'.Valid()
  {
    Push16(c.(ic := c.ic.(enabled := false).Clear(t)), c.pc).(pc := Vector(t))
  }

  function Dispatched(c: CpuState): (c': CpuState)
    requires c.Valid() && Dispatches(c)
    ensures c'.Valid()
  {
    AtHandler(c.(halted := false), c.ic.Pending())
  }

  function Woken(c: CpuState): (c': CpuState)
    ensures c.Valid() ==> c'.Valid()
  {
    if c.curState == 0 && c.ic.IsPending() then c.(halted := false) else c
  }

  // ---- Handlers

  function Advance(c: CpuState, cycles: nat): (t: Ticked)
    requires c.Valid()
    ensures t.c.Valid()
  {
    Ticked(c.(curState := c.curState + 1), cycles)
  }

  function Finish(c: CpuState, cycles: nat): (t: Ticked)
    requires c.Valid()
    ensures t.c.Valid()
  {
    Ticked(c.(curState := 0), cycles)
  }

  function ReadByte(c: CpuState): Byte
    requires c.Valid()
  {
    c.mem[c.pc]
  }

  // Halting, interrupt enabling, interrupt lines and the opcode are as they were.
  predicate KeepsControl(c: CpuState, c': CpuState)
  {
    c'.isCB == c.isCB && c'.curOpcode == c.curOpcode
    && c'.halted == c.halted && c'.enablePending == c.enablePending && c'.enableDelay == c.enableDelay && c'.ic == c.ic
  }

  // JP a16
  function JumpTick(c: CpuState): (t: Ticked)
    requires c.Valid()
    ensures t.c.Valid() && KeepsControl(c, t.c)
  {
    if c.curState == 0 then Advance(c, 4)
    else if c.curState == 1 then Advance(c.(cache := ReadByte(c), pc := Inc(c.pc)), 4)
    else if c.curState == 2 then
      Advance(c.(cache := WordOf(c.cache % 0x100, ReadByte(c)), pc := Inc(c.pc)), 4)
    else Finish(c.(pc := c.cache), 4)
  }

  // procCallSubstate
  function CallTick(c: CpuState, branch: bool): (t: Ticked)
    requires c.Valid()
    ensures t.c.Valid() && KeepsControl(c, t.c)
  {
    if c.curState == 0 then Advance(c, 4)
    else if c.curState == 1 then Advance(c.(cache := ReadByte(c), pc := Inc(c.pc)), 4)
    else if c.curState == 2 then
      var c1 := c.(cache := WordOf(c.cache % 0x100, ReadByte(c)), pc := Inc(c.pc));
      if branch then Advance(c1, 8) else Finish(c1, 4)
    else if c.curState == 3 then
      Advance(Push8(c.(cache := c.pc, pc := c.cache), c.pc / 0x100), 4)
    else Finish(Push8(c, c.cache % 0x100), 4)
  }

  // RET
  function RetTick(c: CpuState): (t: Ticked)
    requires c.Valid()
    ensures t.c.Valid() && KeepsControl(c, t.c)
  {
    if c.curState == 0 then Advance(c, 4)
    else if c.curState == 1 then Advance(c.(cache := c.mem[c.sp], sp := Inc(c.sp)), 4)
    else if c.curState == 2 then
      Advance(c.(cache := WordOf(c.cache % 0x100, c.mem[c.sp]), sp := Inc(c.sp)), 4)
    else Finish(c.(pc := c.cache), 4)
  }

  // RET cc
  function RetIfTick(c: CpuState, taken: bool): (t: Ticked)
    requires c.Valid()
    ensures t.c.Valid() && KeepsControl(c, t.c)
  {
    if c.curState > 0 then RetTick(c) else if taken then Advance(c, 8) else Finish(c, 8)
  }

  // JP cc, a16
  function JumpIfTick(c: CpuState, taken: bool): (t: Ticked)
    requires c.Valid()
    ensures t.c.Valid() && KeepsControl(c, t.c)
  {
    if taken then JumpTick(c) else Finish(c.(pc := Inc(Inc(c.pc))), 12)
  }

  function Execute(c: CpuState, o: Opcode, e: Effect): (t: Ticked)
    requires c.Valid() && |e.mem| == MEM_SIZE
    ensures t.c.Valid()
  {
    match o.handler
    case Simple => Ticked(With(c, e), o.cycles)
    case JumpRel(cond) => Ticked(With(c, e), if Holds(cond, c.f) then o.branchCycles else o.cycles)
    case Staged(costs) =>
      if c.curState + 1 < |costs| then Advance(With(c, e), costs[c.curState])
      else Finish(With(c, e), if c.curState < |costs| then costs[c.curState] else 0)
    case Halt => Ticked(c.(halted := true), o.cycles)
    case Ei => Ticked(if c.enablePending then c else c.(enablePending := true, enableDelay := true), o.cycles)
    case Di => Ticked(c.(ic := c.ic.(enabled := false)), o.cycles)
    case Ret => RetTick(c)
    case Reti => var t := RetTick(c); Ticked(t.c.(ic := t.c.ic.(enabled := true)), t.cycles)
    case RetIf(cond) => RetIfTick(c, Holds(cond, c.f))
    case Jump => JumpTick(c)
    case JumpIf(cond) => JumpIfTick(c, Holds(cond, c.f))
    case Call => CallTick(c, true)
    case CallIf(cond) => CallTick(c, Holds(cond, c.f))
    case Rst(target) => Ticked(Push16(c, c.pc).(pc := target), o.cycles)
  }

  predicate SameOpcode(c: CpuState, c': CpuState)
  {
    c'.isCB == c.isCB && c'.curOpcode == c.curOpcode
  }

  lemma KeepsOpcode(c: CpuState, o: Opcode, e: Effect)
    requires c.Valid() && |e.mem| == MEM_SIZE
    ensures SameOpcode(c, Execute(c, o, e).c)
  {
    hide Push8, JumpTick, RetTick, CallTick, Store, CpuState.Valid;
  }

  // Only a handler that walks through states leaves an instruction unfinished.
  lemma SingleTickEnds(c: CpuState, o: Opcode, e: Effect)
    requires c.Valid() && |e.mem| == MEM_SIZE && c.curState == 0
    ensures Execute(c, o, e).c.curState == 0 || MultiTick(o.handler)
  {
    hide Push8, JumpTick, RetTick, CallTick, Store, CpuState.Valid;
  }

  // ---- A tick

  function Fetched(c: CpuState): (c': CpuState)
    requires c.Valid()
    ensures c'.Valid()
  {
    if c.mem[c.pc] == 0xCB then
      c.(isCB := true, curOpcode := c.mem[Inc(c.pc)], pc := Inc(Inc(c.pc)))
    else
      c.(isCB := false, curOpcode := c.mem[c.pc], pc := Inc(c.pc))
  }

  function Run(c: CpuState, e: Effect): (t: Ticked)
    requires c.Valid() && |e.mem| == MEM_SIZE
    ensures t.c.Valid()
  {
    if c.halted then Ticked(c, HALT_CYCLES)
    else
      var c1 := if c.curState == 0 then Fetched(c) else c;
      Execute(c1, Table(c1.isCB, c1.curOpcode), e)
  }

  function Tick(c: CpuState, e: Effect): (t: Ticked)
    requires c.Valid() && |e.mem| == MEM_SIZE
    ensures t.c.Valid()
  {
    var c1 := ImeStep(c);
    if Dispatches(c1) then Ticked(Dispatched(c1), DISPATCH_CYCLES) else Run(Woken(c1), e)
  }

  // ---- Ticks with the rest of the machine in between

  // Before each tick the devices may have changed memory and interrupt lines.
  datatype World = World(mem: seq<Byte>, ie: bv8, requested: bv8)

  datatype Moment = Moment(world: World, effect: Effect) {
    predicate Valid()
    {
      |world.mem| == MEM_SIZE && |effect.mem| == MEM_SIZE
    }
  }

  function Seen(c: CpuState, w: World): (c': CpuState)
    ensures |w.mem| == MEM_SIZE ==> c'.Valid()
  {
    c.(mem := w.mem, ic := Lines(c.ic.enabled, w.ie, w.requested))
  }

  function Step(c: CpuState, m: Moment): (t: Ticked)
    requires c.Valid() && m.Valid()
    ensures t.c.Valid()
  {
    Tick(Seen(c, m.world), m.effect)
  }

  ghost predicate AllValid(ms: seq<Moment>)
  {
    forall i :: 0 <= i < |ms| ==> ms[i].Valid()
  }

  ghost function Steps(c: CpuState, ms: seq<Moment>): (t: Ticked)
    requires c.Valid() && AllValid(ms)
    ensures t.c.Valid()
  {
    if ms == [] then Ticked(c, 0)
    else
      var t := Steps(c, ms[..|ms| - 1]);
      var u := Step(t.c, ms[|ms| - 1]);
      Ticked(u.c, t.cycles + u.cycles)
  }

  // ---- An instruction from its fetch to its last tick

  // The tick fetches an instruction: the processor is between instructions, takes no interrupt and
  // is not halted.
  predicate Fetches(c: CpuState, m: Moment)
    requires m.Valid()
  {
    var c1 := ImeStep(Seen(c, m.world));
    c.curState == 0 && !Dispatches(c1) && !Woken(c1).halted
  }

  function OpcodeAt(c: CpuState, w: World): Opcode
    requires |w.mem| == MEM_SIZE
  {
    var c1 := Fetched(Seen(c, w));
    Table(c1.isCB, c1.curOpcode)
  }

  function Taken(h: Handler, f: bv8): bool
  {
    match h
    case JumpRel(cond) => Holds(cond, f)
    case RetIf(cond) => Holds(cond, f)
    case JumpIf(cond) => Holds(cond, f)
    case CallIf(cond) => Holds(cond, f)
    case _ => true
  }

  function Plan(c: CpuState, w: World): seq<nat>
    requires |w.mem| == MEM_SIZE
  {
    Schedule(OpcodeAt(c, w), Taken(OpcodeAt(c, w).handler, c.f))
  }

  // One handler tick follows the schedule.
  ghost predicate Follows(c: CpuState, o: Opcode, s: seq<nat>, t: Ticked)
    requires c.curState < |s|
  {
    && t.cycles == s[c.curState]
    && t.c.curState == (if c.curState + 1 < |s| then c.curState + 1 else 0)
    && t.c.isCB == c.isCB && t.c.curOpcode == c.curOpcode
    && (Conditional(o.handler) && t.c.curState != 0 ==> t.c.f == c.f)
  }

  lemma JumpFollows(c: CpuState)
    requires c.Valid() && c.curState < 4
    ensures Follows(c, Opcode(Jump, 16, 0), [4, 4, 4, 4], JumpTick(c)) && JumpTick(c).c.f == c.f
  {
  }

  lemma RetFollows(c: CpuState)
    requires c.Valid() && c.curState < 4
    ensures Follows(c, Opcode(Ret, 16, 0), [4, 4, 4, 4], RetTick(c)) && RetTick(c).c.f == c.f
  {
  }

  lemma CallFollows(c: CpuState, branch: bool)
    requires c.Valid() && c.curState < if branch then 5 else 3
    ensures Follows(c, Opcode(Call, 24, 0), if branch then [4, 4, 8, 4, 4] else [4, 4, 4], CallTick(c, branch))
    ensures CallTick(c, branch).c.f == c.f
  {
  }

  lemma WithKeeps(c: CpuState, e: Effect)
    ensures |e.mem| == MEM_SIZE ==> With(c, e).Valid()
    ensures var r := With(c, e);
      && r.curState == c.curState && r.isCB == c.isCB && r.curOpcode == c.curOpcode && r.halted == c.halted
      && r.enablePending == c.enablePending && r.enableDelay == c.enableDelay && r.ic.enabled == c.ic.enabled
  {
  }

  lemma SingleFollows(c: CpuState, o: Opcode, e: Effect, taken: bool)
    requires c.Valid() && |e.mem| == MEM_SIZE && c.curState == 0 && !MultiTick(o.handler)
    requires Conditional(o.handler) ==> taken == Taken(o.handler, c.f)
    ensures Follows(c, o, Schedule(o, taken), Execute(c, o, e))
  {
    hide Push16, With, Holds;
    WithKeeps(c, e);
  }

  lemma StagedFollows(c: CpuState, o: Opcode, e: Effect, taken: bool)
    requires c.Valid() && |e.mem| == MEM_SIZE && o.handler.Staged? && c.curState < |Schedule(o, taken)|
    ensures Follows(c, o, Schedule(o, taken), Execute(c, o, e))
  {
    hide With;
    WithKeeps(c, e);
  }

  lemma FlowFollows(c: CpuState, o: Opcode, e: Effect, taken: bool)
    requires c.Valid() && |e.mem| == MEM_SIZE && c.curState < |Schedule(o, taken)|
    requires MultiTick(o.handler) && !o.handler.Staged?
    requires Conditional(o.handler) ==> taken == Taken(o.handler, c.f)
    ensures Follows(c, o, Schedule(o, taken), Execute(c, o, e))
  {
    hide Execute, Schedule, Follows, Holds;
    if o.handler == Jump || o.handler.JumpIf? {
      JumpFlow(c, o, e, taken);
    } else if IsCall(o.handler) {
      CallFlow(c, o, e, taken);
    } else {
      RetFlow(c, o, e, taken);
    }
  }

  lemma JumpFlow(c: CpuState, o: Opcode, e: Effect, taken: bool)
    requires c.Valid() && |e.mem| == MEM_SIZE && c.curState < |Schedule(o, taken)|
    requires (o.handler == Jump || o.handler.JumpIf?) && (o.handler.JumpIf? ==> taken == Holds(o.handler.cond, c.f))
    ensures Follows(c, o, Schedule(o, taken), Execute(c, o, e))
  {
    hide JumpTick, Holds;
    if o.handler == Jump || taken {
      JumpFollows(c);
    }
  }

  lemma RetFlow(c: CpuState, o: Opcode, e: Effect, taken: bool)
    requires c.Valid() && |e.mem| == MEM_SIZE && c.curState < |Schedule(o, taken)|
    requires o.handler == Ret || o.handler == Reti || o.handler.RetIf?
    requires o.handler.RetIf? ==> taken == Holds(o.handler.cond, c.f)
    ensures Follows(c, o, Schedule(o, taken), Execute(c, o, e))
  {
    hide RetTick, Holds;
    if !o.handler.RetIf? || taken {
      RetFollows(c);
    }
  }

  lemma CallFlow(c: CpuState, o: Opcode, e: Effect, taken: bool)
    requires c.Valid() && |e.mem| == MEM_SIZE && c.curState < |Schedule(o, taken)|
    requires IsCall(o.handler) && (o.handler.CallIf? ==> taken == Holds(o.handler.cond, c.f))
    ensures Follows(c, o, Schedule(o, taken), Execute(c, o, e))
  {
    hide CallTick, Holds;
    CallFollows(c, o.handler == Call || taken);
  }

  lemma SingleSchedule(o: Opcode, taken: bool)
    ensures !MultiTick(o.handler) ==> |Schedule(o, taken)| == 1
  {
  }

  lemma ExecuteFollows(c: CpuState, o: Opcode, e: Effect, taken: bool)
    requires c.Valid() && |e.mem| == MEM_SIZE && c.curState < |Schedule(o, taken)|
    requires Conditional(o.handler) ==> taken == Taken(o.handler, c.f)
    ensures Follows(c, o, Schedule(o, taken), Execute(c, o, e))
  {
    hide Execute, Schedule, Follows, MultiTick, Taken;
    SingleSchedule(o, taken);
    if o.handler.Staged? {
      StagedFollows(c, o, e, taken);
    } else if MultiTick(o.handler) {
      FlowFollows(c, o, e, taken);
    } else {
      SingleFollows(c, o, e, taken);
    }
  }

  // Between instructions' ends nothing but the instruction at hand happens: no interrupt is taken,
  // and the schedule is followed.
  lemma MidStep(c: CpuState, m: Moment, o: Opcode, taken: bool)
    requires c.Valid() && m.Valid() && o == Table(c.isCB, c.curOpcode) && !c.halted
    requires 0 < c.curState < |Schedule(o, taken)|
    requires Conditional(o.handler) ==> taken == Taken(o.handler, c.f)
    ensures !Dispatches(ImeStep(Seen(c, m.world)))
    ensures Follows(c, o, Schedule(o, taken), Step(c, m))
    ensures Step(c, m).c.curState != 0 ==> !Step(c, m).c.halted
  {
    hide Schedule, Execute, Table, Taken;
    ExecuteFollows(Seen(c, m.world), o, m.effect, taken);
    assert !o.handler.Halt? by { HaltSchedule(o, taken); }
    HaltIsShort(Seen(c, m.world), o, m.effect);
  }

  lemma HaltSchedule(o: Opcode, taken: bool)
    ensures o.handler.Halt? ==> |Schedule(o, taken)| == 1
  {
  }

  // Enabling and waking up leave registers and memory alone.
  lemma WokenKeeps(c: CpuState)
    requires c.Valid()
    ensures var c1 := Woken(ImeStep(c));
      c1.Valid() && c1.pc == c.pc && c1.sp == c.sp && c1.mem == c.mem && c1.f == c.f && c1.curState == c.curState
  {
  }

  lemma FetchedSame(c: CpuState, c1: CpuState)
    requires c.Valid() && c1.Valid() && c1.pc == c.pc && c1.mem == c.mem
    ensures var f, f1 := Fetched(c), Fetched(c1);
      && f1.isCB == f.isCB && f1.curOpcode == f.curOpcode && f1.pc == f.pc
      && f1.curState == c1.curState && f1.f == c1.f && f1.halted == c1.halted
      && f1.sp == c1.sp && f1.mem == c1.mem
  {
  }

  // The tick that fetches an instruction runs its handler.
  lemma FetchingStep(c: CpuState, m: Moment)
    requires c.Valid() && m.Valid() && Fetches(c, m)
    ensures var c1, c2 := Fetched(Seen(c, m.world)), Fetched(Woken(ImeStep(Seen(c, m.world))));
      && Step(c, m) == Execute(c2, OpcodeAt(c, m.world), m.effect)
      && c2.curState == 0 && c2.isCB == c1.isCB && c2.curOpcode == c1.curOpcode && c2.f == c.f && !c2.halted
  {
    hide Execute, Table, AtHandler, Fetched, Woken, ImeStep, Dispatches;
    WokenKeeps(Seen(c, m.world));
    FetchedSame(Seen(c, m.world), Woken(ImeStep(Seen(c, m.world))));
  }

  lemma FirstStep(c: CpuState, m: Moment)
    requires c.Valid() && m.Valid() && Fetches(c, m)
    ensures var o, taken := OpcodeAt(c, m.world), Taken(OpcodeAt(c, m.world).handler, c.f);
      var c1, s, t := Fetched(Seen(c, m.world)), Schedule(o, taken), Step(c, m);
      && 1 <= |s| && t.cycles == s[0]
      && t.c.curState == (if 1 < |s| then 1 else 0)
      && t.c.isCB == c1.isCB && t.c.curOpcode == c1.curOpcode
      && (Conditional(o.handler) && t.c.curState != 0 ==> t.c.f == c.f)
      && (t.c.curState != 0 ==> !t.c.halted)
  {
    hide Schedule, Execute, Table, Taken, Step, Fetched, Fetches, Dispatches, ImeStep, Woken, Seen;
    FetchingStep(c, m);
    var c2 := Fetched(Woken(ImeStep(Seen(c, m.world))));
    var o, taken := OpcodeAt(c, m.world), Taken(OpcodeAt(c, m.world).handler, c.f);
    ScheduleMatchesTable(c2.isCB, c2.curOpcode, taken);
    ExecuteFollows(c2, o, m.effect, taken);
    HaltIsShort(c2, o, m.effect);
  }

  lemma HaltIsShort(c: CpuState, o: Opcode, e: Effect)
    requires c.Valid() && |e.mem| == MEM_SIZE && !c.halted && (c.curState == 0 || !o.handler.Halt?)
    ensures Execute(c, o, e).c.curState != 0 ==> !Execute(c, o, e).c.halted
  {
    hide Push16, JumpTick, CallTick, RetTick;
  }

  // From the tick that fetches it, an instruction takes its ticks one after the other, whatever
  // devices do in between: after k of them it is in state k (0 at the end) with the same opcode,
  // and has reported the first k entries of its schedule.
  lemma {:induction false} InstructionRuns(c: CpuState, ms: seq<Moment>)
    requires c.Valid() && AllValid(ms) && 1 <= |ms| && Fetches(c, ms[0])
    requires |ms| <= |Plan(c, ms[0].world)|
    ensures var o, s, t := OpcodeAt(c, ms[0].world), Plan(c, ms[0].world), Steps(c, ms);
      && t.cycles == Total(s[..|ms|])
      && t.c.curState == (if |ms| < |s| then |ms| else 0)
      && Table(t.c.isCB, t.c.curOpcode) == o
      && t.c.isCB == Fetched(Seen(c, ms[0].world)).isCB && t.c.curOpcode == Fetched(Seen(c, ms[0].world)).curOpcode
      && (t.c.curState != 0 ==> !t.c.halted && (Conditional(o.handler) ==> t.c.f == c.f))
    decreases |ms|
  {
    hide Step, Schedule, Table, Fetches, Fetched;
    var o, s := OpcodeAt(c, ms[0].world), Plan(c, ms[0].world);
    var front, last := ms[..|ms| - 1], ms[|ms| - 1];
    if |ms| == 1 {
      assert front == [];
      FirstStep(c, ms[0]);
      assert s[..1] == [s[0]];
      TotalOf(s[0], 0, 0, 0, 0);
    } else {
      InstructionRuns(c, front);
      var t := Steps(c, front).c;
      MidStep(t, last, o, Taken(o.handler, c.f));
      TotalSnoc(s[..|ms| - 1], s[|ms| - 1]);
      assert s[..|ms|] == s[..|ms| - 1] + [s[|ms| - 1]];
    }
  }

  lemma {:induction false} TotalSnoc(s: seq<nat>, x: nat)
    ensures Total(s + [x]) == Total(s) + x
  {
    if s == [] {
      assert s + [x] == [x] && [x][1..] == [];
    } else {
      TotalSnoc(s[1..], x);
      assert (s + [x])[1..] == s[1..] + [x];
    }
  }

  // Conservation: a whole instruction takes at most five ticks, is between instructions again only
  // at the end, and the cycles it reports are those of the table.
  lemma InstructionCycles(c: CpuState, ms: seq<Moment>)
    requires c.Valid() && AllValid(ms) && 1 <= |ms| && Fetches(c, ms[0])
    requires |ms| == |Plan(c, ms[0].world)|
    ensures var o := OpcodeAt(c, ms[0].world);
      && |ms| <= 5 && Steps(c, ms).c.curState == 0
      && Steps(c, ms).cycles == (if Conditional(o.handler) && Taken(o.handler, c.f) then o.branchCycles else o.cycles)
      && forall k :: 0 < k < |ms| ==> AllValid(ms[..k]) && Steps(c, ms[..k]).c.curState == k
  {
    hide Steps, Schedule, Table, Fetched, Taken, Fetches;
    InstructionRuns(c, ms);
    var s := Plan(c, ms[0].world);
    var c1 := Fetched(Seen(c, ms[0].world));
    ScheduleMatchesTable(c1.isCB, c1.curOpcode, Taken(OpcodeAt(c, ms[0].world).handler, c.f));
    assert s[..|ms|] == s;
    forall k | 0 < k < |ms|
      ensures AllValid(ms[..k]) && Steps(c, ms[..k]).c.curState == k
    {
      InstructionRuns(c, ms[..k]);
    }
  }
}
