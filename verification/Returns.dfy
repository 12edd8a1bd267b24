/** Nested calls and interrupts: every return finds its way back, to any depth. */
module Returns {
  import opened Bytes
  import opened Interrupts
  import opened Opcodes
  import opened Cpu

  // ---- The live part of the stack: from SP up to `top`

  ghost predicate Kept(m: seq<Byte>, m': seq<Byte>, low: int, top: int)
    requires |m| == MEM_SIZE && |m'| == MEM_SIZE && 0 <= low && top <= MEM_SIZE
  {
    forall a :: low <= a < top ==> m'[a] == m[a]
  }

  ghost predicate Sound(c: CpuState, top: int)
  {
    c.Valid() && c.curState == 0 && c.sp <= top <= MEM_SIZE
  }

  // Two bytes of RAM below the stack pointer.
  predicate Room(sp: Word)
  {
    sp >= 2 && Ram(sp - 1) && Ram(sp - 2)
  }

  // Devices leave the live stack alone before this tick.
  ghost predicate Undisturbed(c: CpuState, m: Moment, top: int)
    requires c.Valid() && top <= MEM_SIZE
  {
    m.Valid() && Kept(c.mem, m.world.mem, c.sp, top)
  }

  ghost function Exec(c: CpuState, ms: seq<Moment>): (c': CpuState)
    requires c.Valid() && AllValid(ms)
    ensures c'.Valid()
    decreases |ms|
  {
    if ms == [] then c else Exec(Step(c, ms[0]).c, ms[1..])
  }

  ghost predicate AllUndisturbed(c: CpuState, ms: seq<Moment>, top: int)
    requires c.Valid() && top <= MEM_SIZE
    decreases |ms|
  {
    ms != [] ==> Undisturbed(c, ms[0], top) && AllUndisturbed(Step(c, ms[0]).c, ms[1..], top)
  }

  lemma {:induction false} UndisturbedIsValid(c: CpuState, ms: seq<Moment>, top: int)
    requires c.Valid() && top <= MEM_SIZE && AllUndisturbed(c, ms, top)
    ensures AllValid(ms)
    decreases |ms|
  {
    hide Step;
    if ms != [] {
      UndisturbedIsValid(Step(c, ms[0]).c, ms[1..], top);
      assert forall i :: 1 <= i < |ms| ==> ms[i] == ms[1..][i - 1];
    }
  }

  // ---- Ways in and out

  predicate ByCall(c: CpuState, m: Moment)
    requires m.Valid()
  {
    Fetches(c, m) && IsCall(OpcodeAt(c, m.world).handler) && Taken(OpcodeAt(c, m.world).handler, c.f)
  }

  predicate ByRst(c: CpuState, m: Moment)
    requires m.Valid()
  {
    Fetches(c, m) && OpcodeAt(c, m.world).handler.Rst?
  }

  predicate ByInterrupt(c: CpuState, m: Moment)
  {
    Dispatches(ImeStep(Seen(c, m.world)))
  }

  // The address a return must come back to.
  function ReturnAddress(c: CpuState, m: Moment): Word
    requires m.Valid()
  {
    if ByInterrupt(c, m) then c.pc
    else if ByRst(c, m) then Inc(c.pc)
    else Inc(Inc(Inc(c.pc)))
  }

  ghost predicate Enters(c: CpuState, ms: seq<Moment>, top: int)
    requires c.Valid() && top <= MEM_SIZE
  {
    && AllUndisturbed(c, ms, top) && ms != []
    && (if ByInterrupt(c, ms[0]) then |ms| == 1
        else if ByRst(c, ms[0]) then |ms| == 1
        else ByCall(c, ms[0]) && |ms| == 5)
  }

  ghost predicate Leaves(c: CpuState, ms: seq<Moment>, top: int)
    requires c.Valid() && top <= MEM_SIZE
  {
    && |ms| == 4 && AllUndisturbed(c, ms, top) && Fetches(c, ms[0])
    && var h := OpcodeAt(c, ms[0].world).handler;
       h == Ret || h == Reti || (h.RetIf? && Holds(h.cond, c.f))
  }

  // A byte pushed or written sticks in internal RAM and in the RAM above the I/O registers, and nowhere else.
  lemma RamHolds(mem: seq<Byte>, addr: Word, val: Byte, a: Word)
    requires |mem| == MEM_SIZE
    ensures Store(mem, addr, val)[a]
         == if a == addr && (0xC000 <= addr <= 0xDFFF || 0xFF80 <= addr <= 0xFFFE) then val else mem[a]
  {
  }

  // ---- One tick inside an instruction

  lemma MidTick(c: CpuState, m: Moment)
    requires c.Valid() && m.Valid() && c.curState != 0 && !c.halted
    ensures Step(c, m) == Execute(Seen(c, m.world), Table(c.isCB, c.curOpcode), m.effect)
  {
  }

  lemma FirstTick(c: CpuState, m: Moment)
    requires c.Valid() && m.Valid() && Fetches(c, m)
    ensures var c1 := Fetched(Woken(ImeStep(Seen(c, m.world))));
      && Step(c, m) == Execute(c1, OpcodeAt(c, m.world), m.effect)
      && c1.isCB == Fetched(Seen(c, m.world)).isCB && c1.curOpcode == Fetched(Seen(c, m.world)).curOpcode
      && c1.sp == c.sp && c1.f == c.f && c1.mem == m.world.mem && !c1.halted && c1.curState == 0
  {
    hide Execute, Table, Step, Fetches, Fetched, Woken, ImeStep;
    FetchingStep(c, m);
    WokenKeeps(Seen(c, m.world));
    FetchedSame(Seen(c, m.world), Woken(ImeStep(Seen(c, m.world))));
  }

  // Only unprefixed opcodes call and return, so the opcode is one byte long.
  lemma OneByte(c: CpuState, w: World)
    requires c.Valid() && |w.mem| == MEM_SIZE && !OpcodeAt(c, w).handler.Simple? && !OpcodeAt(c, w).handler.Staged?
    ensures !Fetched(Seen(c, w)).isCB && Fetched(Woken(ImeStep(Seen(c, w)))).pc == Inc(c.pc)
  {
    hide BaseOp, ExtOp, Fetched, Woken, ImeStep;
    var d := Seen(c, w);
    WokenKeeps(d);
    FetchedSame(d, Woken(ImeStep(d)));
    PrefixedIsPlain(Fetched(d).curOpcode);
    FetchedPc(d);
  }

  lemma PrefixedIsPlain(op: Byte)
    ensures ExtOp(op).handler.Simple? || ExtOp(op).handler.Staged?
  {
  }

  lemma FetchedPc(c: CpuState)
    requires c.Valid()
    ensures !Fetched(c).isCB ==> Fetched(c).pc == Inc(c.pc)
  {
  }

  // ---- CALL: the return address goes onto the stack in two different ticks

  ghost predicate Calling(c: CpuState)
  {
    var h := Table(c.isCB, c.curOpcode).handler;
    c.Valid() && !c.halted && IsCall(h) && Taken(h, c.f)
  }

  lemma CallMid(c: CpuState, m: Moment)
    requires Calling(c) && m.Valid() && 0 < c.curState < 5
    ensures Step(c, m).c == CallTick(Seen(c, m.world), true).c
    ensures Step(c, m).c.curState != 0 ==> Calling(Step(c, m).c)
  {
    hide Table;
    MidTick(c, m);
    CallKeepsOpcode(Seen(c, m.world));
  }

  lemma CallKeepsOpcode(c: CpuState)
    requires c.Valid()
    ensures var t := CallTick(c, true).c; t.isCB == c.isCB && t.curOpcode == c.curOpcode && t.f == c.f
  {
  }

  lemma KeptThrough(a: seq<Byte>, b: seq<Byte>, c: seq<Byte>, low: int, low': int, top: int)
    requires |a| == MEM_SIZE && |b| == MEM_SIZE && |c| == MEM_SIZE && 0 <= low' <= low && top <= MEM_SIZE
    requires Kept(a, b, low, top) && Kept(b, c, low', top)
    ensures Kept(a, c, low, top)
  {
  }

  // How far a CALL has got: before its first push, or between the two.
  ghost predicate CallProgress(c: CpuState, sp: Word, ret: Word)
    requires c.Valid()
  {
    if c.curState <= 3 then c.sp == sp && ret == (c.pc + 3 - c.curState) % 0x1_0000
    else sp >= 1 && c.sp == sp - 1 && c.cache == ret && c.mem[sp - 1] == ret / 0x100
  }

  lemma CallTickProgress(c: CpuState, sp: Word, ret: Word, top: int)
    requires c.Valid() && 0 < c.curState < 5 && Room(sp) && sp <= top <= MEM_SIZE && CallProgress(c, sp, ret)
    ensures var t := CallTick(c, true).c;
      && Kept(c.mem, t.mem, sp, top)
      && (c.curState < 4 ==> t.curState == c.curState + 1 && CallProgress(t, sp, ret))
      && (c.curState == 4 ==> (t.curState == 0 && t.sp == sp - 2
                               && t.mem[sp - 1] == ret / 0x100 && t.mem[sp - 2] == ret % 0x100))
  {
    hide Ram, Push8;
    if c.curState == 3 {
      PushAt(c.(cache := c.pc, pc := c.cache), c.pc / 0x100);
    } else if c.curState == 4 {
      PushAt(c, c.cache % 0x100);
    } else {
      OperandTick(c, sp, ret);
    }
  }

  lemma PushAt(c: CpuState, val: Byte)
    requires c.Valid() && c.sp >= 1 && Ram(c.sp - 1)
    ensures Push8(c, val) == c.(sp := c.sp - 1, mem := c.mem[c.sp - 1 := val])
  {
  }

  lemma OperandTick(c: CpuState, sp: Word, ret: Word)
    requires c.Valid() && 0 < c.curState < 3 && CallProgress(c, sp, ret)
    ensures var t := CallTick(c, true).c;
      t.mem == c.mem && t.curState == c.curState + 1 && CallProgress(t, sp, ret)
  {
    hide Push8, WordOf, Inc;
    IncAhead(c.pc, 2 - c.curState);
  }

  lemma IncAhead(pc: Word, k: nat)
    requires k <= 2
    ensures (Inc(pc) + k) % 0x1_0000 == (pc + k + 1) % 0x1_0000
  {
  }

  lemma CallStep(c: CpuState, m: Moment, sp: Word, ret: Word, top: int)
    requires Calling(c) && 0 < c.curState < 5 && Room(sp) && sp <= top <= MEM_SIZE
    requires CallProgress(c, sp, ret) && Undisturbed(c, m, top)
    ensures var t := Step(c, m).c;
      && Kept(c.mem, t.mem, sp, top)
      && (c.curState < 4 ==> t.curState == c.curState + 1 && Calling(t) && CallProgress(t, sp, ret))
      && (c.curState == 4 ==> (t.curState == 0 && t.sp == sp - 2
                               && t.mem[sp - 1] == ret / 0x100 && t.mem[sp - 2] == ret % 0x100))
  {
    hide Calling, Step, CallTick, Ram;
    CallingIsValid(c);
    CallMid(c, m);
    var q := Seen(c, m.world);
    assert Kept(c.mem, q.mem, sp, top);
    CallTickProgress(q, sp, ret, top);
    KeptThrough(c.mem, q.mem, Step(c, m).c.mem, sp, sp, top);
  }

  lemma CallingIsValid(c: CpuState)
    requires Calling(c)
    ensures c.Valid()
  {
  }

  lemma {:induction false} CallFinishes(c: CpuState, ms: seq<Moment>, sp: Word, ret: Word, top: int)
    requires Calling(c) && 0 < c.curState < 5 && |ms| == 5 - c.curState && Room(sp) && sp <= top <= MEM_SIZE
    requires CallProgress(c, sp, ret) && AllUndisturbed(c, ms, top)
    ensures AllValid(ms)
    ensures var r := Exec(c, ms);
      && r.curState == 0 && r.sp == sp - 2 && Kept(c.mem, r.mem, sp, top)
      && r.mem[sp - 1] == ret / 0x100 && r.mem[sp - 2] == ret % 0x100
    decreases |ms|
  {
    hide Step, Calling, CallProgress, Kept;
    CallingIsValid(c);
    UndisturbedIsValid(c, ms, top);
    CallStep(c, ms[0], sp, ret, top);
    var t := Step(c, ms[0]).c;
    if c.curState < 4 {
      CallFinishes(t, ms[1..], sp, ret, top);
      KeptThrough(c.mem, t.mem, Exec(c, ms).mem, sp, sp, top);
    } else {
      assert Exec(t, ms[1..]) == t;
    }
  }

  // ---- RET: it comes off again in two different ticks

  ghost predicate Returning(c: CpuState)
  {
    var h := Table(c.isCB, c.curOpcode).handler;
    c.Valid() && !c.halted && (h == Ret || h == Reti || h.RetIf?)
  }

  lemma RetMid(c: CpuState, m: Moment)
    requires Returning(c) && m.Valid() && 0 < c.curState < 4
    ensures Step(c, m).c == RetTick(Seen(c, m.world)).c.(ic := Step(c, m).c.ic)
    ensures Step(c, m).c.curState != 0 ==> Returning(Step(c, m).c)
  {
    hide Table;
    MidTick(c, m);
    RetKeepsOpcode(Seen(c, m.world));
  }

  lemma RetKeepsOpcode(c: CpuState)
    requires c.Valid()
    ensures var t := RetTick(c).c; t.isCB == c.isCB && t.curOpcode == c.curOpcode
  {
  }

  lemma ReturningIsValid(c: CpuState)
    requires Returning(c)
    ensures c.Valid()
  {
  }

  // How far a RET from stack pointer `sp` has got.
  ghost predicate RetProgress(c: CpuState, sp: Word, ret: Word)
    requires c.Valid() && sp <= 0xFFFD
  {
    if c.curState == 1 then c.sp == sp && c.mem[sp] == ret % 0x100 && c.mem[sp + 1] == ret / 0x100
    else if c.curState == 2 then c.sp == sp + 1 && c.cache == ret % 0x100 && c.mem[sp + 1] == ret / 0x100
    else c.sp == sp + 2 && c.cache == ret
  }

  // RET over memory that agrees with the old one from the stack pointer up.
  lemma RetTickOn(c: CpuState, mem: seq<Byte>, sp: Word, ret: Word, top: int)
    requires c.Valid() && |mem| == MEM_SIZE && 0 < c.curState < 4 && sp + 2 <= top <= MEM_SIZE && sp <= 0xFFFD
    requires RetProgress(c, sp, ret) && Kept(c.mem, mem, c.sp, top)
    ensures var t := RetTick(c.(mem := mem)).c;
      && t.mem == mem
      && (c.curState < 3 ==> t.curState == c.curState + 1 && RetProgress(t, sp, ret))
      && (c.curState == 3 ==> t.curState == 0 && t.sp == sp + 2 && t.pc == ret)
  {
  }

  lemma KeptFurtherUp(m: seq<Byte>, m': seq<Byte>, low: int, higher: int, top: int)
    requires |m| == MEM_SIZE && |m'| == MEM_SIZE && 0 <= low <= higher && top <= MEM_SIZE && Kept(m, m', low, top)
    ensures Kept(m, m', higher, top)
  {
  }

  lemma RetIgnoresLines(c: CpuState, ic: Lines)
    requires c.Valid()
    ensures RetTick(c.(ic := ic)).c == RetTick(c).c.(ic := ic)
  {
    hide RetTick;
    if 1 <= c.curState <= 2 {
      PopIgnoresLines(c, ic);
    } else {
      RestIgnoresLines(c, ic);
    }
  }

  lemma PopIgnoresLines(c: CpuState, ic: Lines)
    requires c.Valid() && 1 <= c.curState <= 2
    ensures RetTick(c.(ic := ic)).c == RetTick(c).c.(ic := ic)
  {
    hide Inc, WordOf;
    var d := c.(ic := ic);
    assert d.mem == c.mem && d.sp == c.sp && d.cache == c.cache;
  }

  lemma RestIgnoresLines(c: CpuState, ic: Lines)
    requires c.Valid() && !(1 <= c.curState <= 2)
    ensures RetTick(c.(ic := ic)).c == RetTick(c).c.(ic := ic)
  {
    hide Inc, WordOf;
  }

  lemma RetStep(c: CpuState, m: Moment, sp: Word, ret: Word, top: int)
    requires Returning(c) && 0 < c.curState < 4 && sp + 2 <= top <= MEM_SIZE && sp <= 0xFFFD
    requires RetProgress(c, sp, ret) && Undisturbed(c, m, top)
    ensures var t := Step(c, m).c;
      && Kept(c.mem, t.mem, sp + 2, top)
      && (c.curState < 3 ==> t.curState == c.curState + 1 && Returning(t) && RetProgress(t, sp, ret))
      && (c.curState == 3 ==> t.curState == 0 && t.sp == sp + 2 && t.pc == ret)
  {
    hide Returning, Step, RetTick, Kept;
    ReturningIsValid(c);
    RetMid(c, m);
    RetTickOn(c, m.world.mem, sp, ret, top);
    RetIgnoresLines(c.(mem := m.world.mem), Seen(c, m.world).ic);
    KeptFurtherUp(c.mem, m.world.mem, c.sp, sp + 2, top);
  }

  lemma {:induction false} RetFinishes(c: CpuState, ms: seq<Moment>, sp: Word, ret: Word, top: int)
    requires Returning(c) && 0 < c.curState < 4 && |ms| == 4 - c.curState && sp + 2 <= top <= MEM_SIZE && sp <= 0xFFFD
    requires RetProgress(c, sp, ret) && AllUndisturbed(c, ms, top)
    ensures AllValid(ms)
    ensures var r := Exec(c, ms);
      r.curState == 0 && r.sp == sp + 2 && r.pc == ret && Kept(c.mem, r.mem, sp + 2, top)
    decreases |ms|
  {
    hide Step, Returning, RetProgress, Kept;
    ReturningIsValid(c);
    UndisturbedIsValid(c, ms, top);
    RetStep(c, ms[0], sp, ret, top);
    var t := Step(c, ms[0]).c;
    if c.curState < 3 {
      RetFinishes(t, ms[1..], sp, ret, top);
      KeptThrough(c.mem, t.mem, Exec(c, ms).mem, sp + 2, sp + 2, top);
    } else {
      assert Exec(t, ms[1..]) == t;
    }
  }

  // ---- Every way in leaves the return address below the old stack pointer

  ghost predicate Entered(c: CpuState, r: CpuState, ret: Word, top: int)
    requires c.Valid() && r.Valid() && top <= MEM_SIZE
  {
    && r.curState == 0 && c.sp >= 2 && r.sp == c.sp - 2 && Kept(c.mem, r.mem, c.sp, top)
    && r.mem[c.sp - 1] == ret / 0x100 && r.mem[c.sp - 2] == ret % 0x100
  }

  lemma CallBegins(c: CpuState, m: Moment, top: int)
    requires Sound(c, top) && Undisturbed(c, m, top) && ByCall(c, m)
    ensures var t := Step(c, m).c;
      t.curState == 1 && Calling(t) && CallProgress(t, c.sp, Inc(Inc(Inc(c.pc)))) && Kept(c.mem, t.mem, c.sp, top)
  {
    hide Fetched, Woken, ImeStep, BaseOp, ExtOp, Push8;
    FirstTick(c, m);
    OneByte(c, m.world);
  }

  lemma EntersByCall(c: CpuState, ms: seq<Moment>, top: int)
    requires Sound(c, top) && Room(c.sp) && AllUndisturbed(c, ms, top) && |ms| == 5 && ByCall(c, ms[0])
    ensures AllValid(ms) && Entered(c, Exec(c, ms), Inc(Inc(Inc(c.pc))), top)
  {
    hide Step, Calling, CallProgress, Kept, ByCall;
    UndisturbedIsValid(c, ms, top);
    CallBegins(c, ms[0], top);
    var t := Step(c, ms[0]).c;
    CallFinishes(t, ms[1..], c.sp, Inc(Inc(Inc(c.pc))), top);
    KeptThrough(c.mem, t.mem, Exec(c, ms).mem, c.sp, c.sp, top);
  }

  lemma PushWord(c: CpuState, val: Word, top: int)
    requires c.Valid() && Room(c.sp) && c.sp <= top <= MEM_SIZE
    ensures var r := Push16(c, val);
      && r.sp == c.sp - 2 && Kept(c.mem, r.mem, c.sp, top)
      && r.mem[c.sp - 1] == val / 0x100 && r.mem[c.sp - 2] == val % 0x100
  {
    hide Ram, Push8;
    PushAt(c, val / 0x100);
    PushAt(Push8(c, val / 0x100), val % 0x100);
  }

  lemma EntersByRst(c: CpuState, m: Moment, top: int)
    requires Sound(c, top) && Room(c.sp) && Undisturbed(c, m, top) && ByRst(c, m)
    ensures Entered(c, Step(c, m).c, Inc(c.pc), top)
  {
    hide Fetched, Woken, ImeStep, BaseOp, ExtOp, Push16, Ram;
    FirstTick(c, m);
    OneByte(c, m.world);
    var c1 := Fetched(Woken(ImeStep(Seen(c, m.world))));
    PushWord(c1, c1.pc, top);
    KeptThrough(c.mem, c1.mem, Step(c, m).c.mem, c.sp, c.sp, top);
  }

  lemma EntersByInterrupt(c: CpuState, m: Moment, top: int)
    requires Sound(c, top) && Room(c.sp) && Undisturbed(c, m, top) && ByInterrupt(c, m)
    ensures Entered(c, Step(c, m).c, c.pc, top)
  {
    hide Push16, Ram, Vector, Lines.Clear, Lines.Pending;
    var c1 := ImeStep(Seen(c, m.world));
    var c2 := c1.(halted := false, ic := c1.ic.(enabled := false).Clear(c1.ic.Pending()));
    PushWord(c2, c2.pc, top);
    KeptThrough(c.mem, c2.mem, Step(c, m).c.mem, c.sp, c.sp, top);
  }

  lemma ExecOne(c: CpuState, ms: seq<Moment>)
    requires c.Valid() && AllValid(ms) && |ms| == 1
    ensures Exec(c, ms) == Step(c, ms[0]).c
  {
    hide Step;
    assert ms[1..] == [];
    assert Exec(Step(c, ms[0]).c, []) == Step(c, ms[0]).c;
  }

  lemma EntersPushes(c: CpuState, ms: seq<Moment>, top: int)
    requires Sound(c, top) && Room(c.sp) && Enters(c, ms, top)
    ensures AllValid(ms) && Entered(c, Exec(c, ms), ReturnAddress(c, ms[0]), top)
  {
    hide Step, Entered, ByCall, ByRst, ByInterrupt, Ram, Kept;
    UndisturbedIsValid(c, ms, top);
    if ByInterrupt(c, ms[0]) {
      ExecOne(c, ms);
      EntersByInterrupt(c, ms[0], top);
    } else if ByRst(c, ms[0]) {
      ExecOne(c, ms);
      EntersByRst(c, ms[0], top);
    } else {
      EntersByCall(c, ms, top);
    }
  }

  // ---- Every way out comes back to the address on top of the stack

  lemma RetBegins(c: CpuState, m: Moment, top: int)
    requires Sound(c, top) && Undisturbed(c, m, top) && Fetches(c, m) && c.sp + 2 <= top && c.sp <= 0xFFFD
    requires var h := OpcodeAt(c, m.world).handler; h == Ret || h == Reti || (h.RetIf? && Holds(h.cond, c.f))
    ensures var t := Step(c, m).c;
      && t.curState == 1 && Returning(t) && Kept(c.mem, t.mem, c.sp, top)
      && RetProgress(t, c.sp, WordOf(c.mem[c.sp], c.mem[c.sp + 1]))
  {
    hide Fetched, Woken, ImeStep, BaseOp, ExtOp;
    FirstTick(c, m);
  }

  lemma LeavesPops(c: CpuState, ms: seq<Moment>, top: int)
    requires Sound(c, top) && Leaves(c, ms, top) && c.sp + 2 <= top && c.sp <= 0xFFFD
    ensures AllValid(ms)
    ensures var r := Exec(c, ms);
      && r.curState == 0 && r.sp == c.sp + 2 && r.pc == WordOf(c.mem[c.sp], c.mem[c.sp + 1])
      && Kept(c.mem, r.mem, c.sp + 2, top)
  {
    hide Step, Returning, RetProgress, Kept, Fetches, OpcodeAt;
    UndisturbedIsValid(c, ms, top);
    RetBegins(c, ms[0], top);
    var t := Step(c, ms[0]).c;
    RetFinishes(t, ms[1..], c.sp, WordOf(c.mem[c.sp], c.mem[c.sp + 1]), top);
    KeptDown(c.mem, t.mem, c.sp, c.sp + 2, top);
    KeptThrough(c.mem, t.mem, Exec(c, ms).mem, c.sp + 2, c.sp + 2, top);
  }

  lemma KeptDown(a: seq<Byte>, b: seq<Byte>, low: int, low': int, top: int)
    requires |a| == MEM_SIZE && |b| == MEM_SIZE && 0 <= low <= low' && top <= MEM_SIZE && Kept(a, b, low, top)
    ensures Kept(a, b, low', top)
  {
  }

  // ---- Histories of nested calls

  // `Other` is any stretch of ticks that ends with the stack pointer and the live stack as they
  // were; `Nested` is a call, RST or interrupt, what happens inside it, and its return.
  datatype Trace =
    | Done
    | Other(ticks: seq<Moment>, rest: Trace)
    | Nested(enter: seq<Moment>, body: Trace, leave: seq<Moment>, rest: Trace)

  ghost predicate Balanced(c: CpuState, ms: seq<Moment>, top: int)
    requires Sound(c, top) && AllValid(ms)
  {
    var r := Exec(c, ms);
    r.curState == 0 && r.sp == c.sp && Kept(c.mem, r.mem, c.sp, top)
  }

  ghost function Through(c: CpuState, t: Trace): (c': CpuState)
    requires c.Valid() && TicksValid(t)
    ensures c'.Valid()
    decreases t
  {
    match t
    case Done => c
    case Other(ticks, rest) => Through(Exec(c, ticks), rest)
    case Nested(enter, body, leave, rest) => Through(Exec(Through(Exec(c, enter), body), leave), rest)
  }

  ghost predicate TicksValid(t: Trace)
  {
    match t
    case Done => true
    case Other(ticks, rest) => AllValid(ticks) && TicksValid(rest)
    case Nested(enter, body, leave, rest) => AllValid(enter) && TicksValid(body) && AllValid(leave) && TicksValid(rest)
  }

  ghost predicate WellNested(c: CpuState, t: Trace, top: int)
    requires c.Valid() && TicksValid(t)
    decreases t
  {
    && Sound(c, top)
    && match t
       case Done => true
       case Other(ticks, rest) => Balanced(c, ticks, top) && WellNested(Exec(c, ticks), rest, top)
       case Nested(enter, body, leave, rest) =>
         var c1 := Exec(c, enter);
         var c2 := Through(c1, body);
         && Room(c.sp) && Enters(c, enter, top) && WellNested(c1, body, top)
         && Leaves(c2, leave, top) && WellNested(Exec(c2, leave), rest, top)
  }

  // Every return in the history comes back to the address behind its own call, with the stack
  // pointer the call found.
  ghost predicate AllReturn(c: CpuState, t: Trace)
    requires c.Valid() && TicksValid(t)
    decreases t
  {
    match t
    case Done => true
    case Other(ticks, rest) => AllReturn(Exec(c, ticks), rest)
    case Nested(enter, body, leave, rest) =>
      var c1 := Exec(c, enter);
      var c2 := Exec(Through(c1, body), leave);
      && enter != [] && c2.pc == ReturnAddress(c, enter[0]) && c2.sp == c.sp
      && AllReturn(c1, body) && AllReturn(c2, rest)
  }

  lemma EnterStaysSound(c: CpuState, r: CpuState, ret: Word, top: int)
    requires Sound(c, top) && r.Valid() && Entered(c, r, ret, top)
    ensures Sound(r, top) && r.sp <= 0xFFFD && r.sp + 2 == c.sp
    ensures Kept(c.mem, r.mem, c.sp, top) && WordOf(r.mem[r.sp], r.mem[r.sp + 1]) == ret
  {
  }

  // One call, seen from outside, once its body is known to give the stack back.
  lemma CallReturns(c: CpuState, enter: seq<Moment>, c2: CpuState, leave: seq<Moment>, top: int)
    requires Sound(c, top) && Room(c.sp) && Enters(c, enter, top) && AllValid(enter)
    requires var c1 := Exec(c, enter);
      c2.Valid() && c2.curState == 0 && c2.sp == c1.sp && Kept(c1.mem, c2.mem, c1.sp, top)
    requires Leaves(c2, leave, top) && AllValid(leave)
    ensures enter != []
    ensures var c3 := Exec(c2, leave);
      && c3.curState == 0 && c3.sp == c.sp && c3.pc == ReturnAddress(c, enter[0]) && Kept(c.mem, c3.mem, c.sp, top)
  {
    hide Exec, Enters, Leaves, ReturnAddress, Entered;
    EntersSomehow(c, enter, top);
    var c1, ret := Exec(c, enter), ReturnAddress(c, enter[0]);
    EntersPushes(c, enter, top);
    EnterStaysSound(c, c1, ret, top);
    LeavesPops(c2, leave, top);
    KeptDown(c1.mem, c2.mem, c1.sp, c.sp, top);
    KeptThrough(c.mem, c1.mem, c2.mem, c.sp, c.sp, top);
    KeptThrough(c.mem, c2.mem, Exec(c2, leave).mem, c.sp, c.sp, top);
  }

  lemma EntersSomehow(c: CpuState, enter: seq<Moment>, top: int)
    requires c.Valid() && top <= MEM_SIZE && Enters(c, enter, top)
    ensures enter != []
  {
  }

  // Calls, RSTs and interrupts nested to any depth, with the stack in RAM and its live part left
  // alone by everything else: every return finds its address and its stack pointer, and the
  // history as a whole gives the stack back as it was.
  lemma {:induction false} NestedReturns(c: CpuState, t: Trace, top: int)
    requires c.Valid() && TicksValid(t) && WellNested(c, t, top)
    ensures AllReturn(c, t)
    ensures var r := Through(c, t); r.curState == 0 && r.sp == c.sp && Kept(c.mem, r.mem, c.sp, top)
    decreases t
  {
    hide Exec, Enters, Leaves, ReturnAddress, Kept;
    match t
    case Done => assert Kept(c.mem, c.mem, c.sp, top) by { KeptSame(c.mem, c.sp, top); }
    case Other(ticks, rest) =>
      var r := Exec(c, ticks);
      NestedReturns(r, rest, top);
      KeptThrough(c.mem, r.mem, Through(r, rest).mem, c.sp, c.sp, top);
    case Nested(enter, body, leave, rest) =>
      var c1 := Exec(c, enter);
      NestedReturns(c1, body, top);
      var c2 := Through(c1, body);
      CallReturns(c, enter, c2, leave, top);
      var c3 := Exec(c2, leave);
      NestedReturns(c3, rest, top);
      KeptThrough(c.mem, c3.mem, Through(c3, rest).mem, c.sp, c.sp, top);
  }

  lemma KeptSame(m: seq<Byte>, low: int, top: int)
    requires |m| == MEM_SIZE && 0 <= low && top <= MEM_SIZE
    ensures Kept(m, m, low, top)
  {
  }
}
