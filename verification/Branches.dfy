/** Jumps, calls and returns from the opcode byte and the bits of F: whether they are taken, where they go, and
    what they cost. */
module Branches {
  import opened Bytes
  import opened Opcodes
  import opened Cpu
  import Returns

  // ---- What the opcodes are

  // The condition in bits 3 and 4 of a conditional opcode: NZ, Z, NC, C on bits 7 and 4 of F.
  predicate Met(op: Byte, f: bv8)
  {
    (if op / 8 % 4 < 2 then f & 0x80 != 0 else f & 0x10 != 0) <==> op / 8 % 2 == 1
  }

  predicate IsJumpIf(op: Byte)
  {
    op == 0xC2 || op == 0xCA || op == 0xD2 || op == 0xDA
  }

  predicate IsCallIf(op: Byte)
  {
    op == 0xC4 || op == 0xCC || op == 0xD4 || op == 0xDC
  }

  predicate IsRetIf(op: Byte)
  {
    op == 0xC0 || op == 0xC8 || op == 0xD0 || op == 0xD8
  }

  predicate IsJumpRelIf(op: Byte)
  {
    op == 0x20 || op == 0x28 || op == 0x30 || op == 0x38
  }

  predicate IsRst(op: Byte)
  {
    op >= 0xC0 && op % 8 == 7
  }

  // The conditional opcodes are exactly these, with these cycles when they fall through and when taken.
  lemma ConditionalOpcodes(op: Byte)
    ensures var o := BaseOp(op);
      && (o.handler.JumpIf? <==> IsJumpIf(op)) && (IsJumpIf(op) ==> o.cycles == 12 && o.branchCycles == 16)
      && (o.handler.CallIf? <==> IsCallIf(op)) && (IsCallIf(op) ==> o.cycles == 12 && o.branchCycles == 24)
      && (o.handler.RetIf? <==> IsRetIf(op)) && (IsRetIf(op) ==> o.cycles == 8 && o.branchCycles == 20)
      && (o.handler.JumpRel? <==> IsJumpRelIf(op)) && (IsJumpRelIf(op) ==> o.cycles == 8 && o.branchCycles == 12)
  {
  }

  // The unconditional ones, and the control opcodes.
  lemma ControlOpcodes(op: Byte)
    ensures var h := BaseOp(op).handler;
      && (h == Jump <==> op == 0xC3) && (h == Call <==> op == 0xCD) && (h == Ret <==> op == 0xC9)
      && (h == Reti <==> op == 0xD9) && (h == Halt <==> op == 0x76) && (h == Ei <==> op == 0xFB)
      && (h == Di <==> op == 0xF3) && (h.Rst? <==> IsRst(op)) && (h.Rst? ==> h.target == 8 * (op / 8 % 8))
  {
  }

  lemma ConditionIs(op: Byte, f: bv8)
    requires IsJumpIf(op) || IsCallIf(op) || IsRetIf(op) || IsJumpRelIf(op)
    ensures Conditional(BaseOp(op).handler) && (Taken(BaseOp(op).handler, f) <==> Met(op, f))
  {
  }

  // Nothing prefixed branches.
  lemma PrefixedStays(op: Byte)
    ensures !Conditional(ExtOp(op).handler) && (ExtOp(op).handler.Simple? || ExtOp(op).handler.Staged?)
  {
  }

  // ---- The opcode at the program counter

  function OpcodeByte(c: CpuState, w: World): Byte
    requires |w.mem| == MEM_SIZE
  {
    w.mem[c.pc]
  }

  lemma Unprefixed(c: CpuState, w: World)
    requires |w.mem| == MEM_SIZE && OpcodeByte(c, w) != 0xCB
    ensures OpcodeAt(c, w) == BaseOp(OpcodeByte(c, w))
  {
    hide BaseOp;
  }

  // With the prefix, the next byte selects from the other table.
  lemma Prefixed(c: CpuState, w: World)
    requires |w.mem| == MEM_SIZE && OpcodeByte(c, w) == 0xCB
    ensures OpcodeAt(c, w) == ExtOp(w.mem[(c.pc + 1) % 0x1_0000])
    ensures Fetched(Seen(c, w)).pc == (c.pc + 2) % 0x1_0000
  {
    hide ExtOp;
  }

  // Two bytes, low byte first.
  function Address(low: Byte, high: Byte): Word
  {
    0x100 * high + low
  }

  // ---- Ticks

  // The handler that runs is one of those that read an address, on its way to it.
  predicate ReadsAddress(h: Handler, f: bv8)
  {
    h == Jump || h == Call || ((h.JumpIf? || h.CallIf?) && Taken(h, f))
  }

  lemma AddressFirst(c: CpuState, m: Moment)
    requires c.Valid() && m.Valid() && Fetches(c, m) && ReadsAddress(OpcodeAt(c, m.world).handler, c.f)
    ensures Step(c, m).c.pc == (c.pc + 1) % 0x1_0000
  {
    hide Step, Table, Fetches, Fetched, Woken, ImeStep, Holds;
    Returns.FirstTick(c, m);
    Returns.OneByte(c, m.world);
  }

  lemma AddressByte(c: CpuState, m: Moment)
    requires c.Valid() && m.Valid() && 1 <= c.curState <= 2 && !c.halted
    requires ReadsAddress(Table(c.isCB, c.curOpcode).handler, c.f)
    ensures var t := Step(c, m).c;
      && t.pc == (c.pc + 1) % 0x1_0000
      && t.cache == if c.curState == 1 then m.world.mem[c.pc] else Address(c.cache % 0x100, m.world.mem[c.pc])
  {
    hide Step, Table, Holds, Push8;
    Returns.MidTick(c, m);
  }

  lemma JumpLands(c: CpuState, m: Moment)
    requires c.Valid() && m.Valid() && c.curState == 3 && !c.halted
    requires var h := Table(c.isCB, c.curOpcode).handler; ReadsAddress(h, c.f)
    ensures Step(c, m).c.pc == c.cache
  {
    hide Step, Table, Holds, Push8;
    Returns.MidTick(c, m);
  }

  lemma CallStays(c: CpuState, m: Moment)
    requires c.Valid() && m.Valid() && c.curState == 4 && !c.halted
    requires var h := Table(c.isCB, c.curOpcode).handler; IsCall(h) && ReadsAddress(h, c.f)
    ensures Step(c, m).c.pc == c.pc
  {
    hide Step, Table, Holds, Push8;
    Returns.MidTick(c, m);
  }

  lemma OneMore(c: CpuState, ms: seq<Moment>, k: nat)
    requires c.Valid() && AllValid(ms) && k < |ms|
    ensures AllValid(ms[..k]) && AllValid(ms[..k + 1])
    ensures Steps(c, ms[..k + 1]).c == Step(Steps(c, ms[..k]).c, ms[k]).c
  {
    hide Step;
    assert ms[..k + 1][..k] == ms[..k];
  }

  // In the middle of an instruction, k ticks in.
  lemma Within(c: CpuState, ms: seq<Moment>, k: nat)
    requires c.Valid() && AllValid(ms) && 1 <= k <= |ms| && Fetches(c, ms[0]) && k < |Plan(c, ms[0].world)|
    ensures AllValid(ms[..k])
    ensures var o, t := OpcodeAt(c, ms[0].world), Steps(c, ms[..k]).c;
      && t.curState == k && !t.halted && Table(t.isCB, t.curOpcode) == o
      && (Conditional(o.handler) ==> t.f == c.f)
  {
    hide Steps, Table, Fetched, Schedule, Fetches;
    InstructionRuns(c, ms[..k]);
  }

  lemma AddressPlan(o: Opcode, f: bv8)
    requires ReadsAddress(o.handler, f)
    ensures |Schedule(o, Taken(o.handler, f))| == if IsCall(o.handler) then 5 else 4
  {
    hide Holds;
  }

  lemma Reads(h: Handler, f: bv8, g: bv8)
    requires ReadsAddress(h, f) && (Conditional(h) ==> g == f)
    ensures ReadsAddress(h, g)
  {
  }

  lemma AddressOnce(c: CpuState, ms: seq<Moment>)
    requires c.Valid() && AllValid(ms) && |ms| >= 1 && Fetches(c, ms[0])
    requires ReadsAddress(OpcodeAt(c, ms[0].world).handler, c.f)
    ensures AllValid(ms[..1]) && Steps(c, ms[..1]).c.pc == (c.pc + 1) % 0x1_0000
  {
    hide Steps, Step, OpcodeAt, Fetches, ReadsAddress;
    assert ms[..0] == [];
    NoSteps(c);
    OneMore(c, ms, 0);
    AddressFirst(c, ms[0]);
  }

  lemma AddressOn(c: CpuState, ms: seq<Moment>, k: nat)
    requires c.Valid() && AllValid(ms) && 1 <= k <= 2 && k < |ms| && Fetches(c, ms[0]) && k < |Plan(c, ms[0].world)|
    requires ReadsAddress(OpcodeAt(c, ms[0].world).handler, c.f)
    ensures AllValid(ms[..k]) && AllValid(ms[..k + 1])
    ensures var s, t := Steps(c, ms[..k]).c, Steps(c, ms[..k + 1]).c;
      && t.pc == (s.pc + 1) % 0x1_0000
      && t.cache == if k == 1 then ms[k].world.mem[s.pc] else Address(s.cache % 0x100, ms[k].world.mem[s.pc])
  {
    hide Steps, Step, OpcodeAt, Fetches, Schedule, Taken, Table, ReadsAddress;
    OneMore(c, ms, k);
    Within(c, ms, k);
    Reads(OpcodeAt(c, ms[0].world).handler, c.f, Steps(c, ms[..k]).c.f);
    AddressByte(Steps(c, ms[..k]).c, ms[k]);
  }

  // After three ticks the two operand bytes have been read, low byte first, each as it was at its tick.
  lemma AddressRead(c: CpuState, ms: seq<Moment>)
    requires c.Valid() && AllValid(ms) && |ms| >= 3 && Fetches(c, ms[0])
    requires ReadsAddress(OpcodeAt(c, ms[0].world).handler, c.f)
    ensures AllValid(ms[..3])
    ensures var t := Steps(c, ms[..3]).c;
      && t.pc == (c.pc + 3) % 0x1_0000
      && t.cache == Address(ms[1].world.mem[(c.pc + 1) % 0x1_0000], ms[2].world.mem[(c.pc + 2) % 0x1_0000])
  {
    hide Steps, Step, OpcodeAt, Fetches, Schedule, Taken, ReadsAddress;
    AddressPlan(OpcodeAt(c, ms[0].world), c.f);
    AddressOnce(c, ms);
    AddressOn(c, ms, 1);
    AddressOn(c, ms, 2);
  }

  lemma NoSteps(c: CpuState)
    requires c.Valid()
    ensures AllValid([]) && Steps(c, []) == Ticked(c, 0)
  {
  }

  // A jump or a call that is taken goes to the address in its two operand bytes.
  lemma GoesToAddress(c: CpuState, ms: seq<Moment>)
    requires c.Valid() && AllValid(ms) && |ms| >= 1 && Fetches(c, ms[0]) && |ms| == |Plan(c, ms[0].world)|
    requires ReadsAddress(OpcodeAt(c, ms[0].world).handler, c.f)
    ensures |ms| == if IsCall(OpcodeAt(c, ms[0].world).handler) then 5 else 4
    ensures Steps(c, ms).c.pc
         == Address(ms[1].world.mem[(c.pc + 1) % 0x1_0000], ms[2].world.mem[(c.pc + 2) % 0x1_0000])
  {
    hide Steps, Step, Table, Fetched, Schedule, Fetches, ReadsAddress, Taken, Conditional;
    var o := OpcodeAt(c, ms[0].world);
    AddressPlan(o, c.f);
    AddressRead(c, ms);
    OneMore(c, ms, 3);
    var t3 := Steps(c, ms[..3]).c;
    Within(c, ms, 3);
    Reads(o.handler, c.f, t3.f);
    JumpLands(t3, ms[3]);
    if IsCall(o.handler) {
      OneMore(c, ms, 4);
      Within(c, ms, 4);
      Reads(o.handler, c.f, Steps(c, ms[..4]).c.f);
      CallStays(Steps(c, ms[..4]).c, ms[4]);
      assert ms[..5] == ms;
    } else {
      assert ms[..4] == ms;
    }
  }

  // ---- Not taken

  // A jump that is not taken skips its operand in its one tick.
  lemma JumpSkips(c: CpuState, m: Moment)
    requires c.Valid() && m.Valid() && Fetches(c, m)
    requires var h := OpcodeAt(c, m.world).handler; h.JumpIf? && !Taken(h, c.f)
    ensures Step(c, m).c.pc == (c.pc + 3) % 0x1_0000
  {
    hide Step, Table, Fetches, Fetched, Woken, ImeStep, Holds;
    Returns.FirstTick(c, m);
    Returns.OneByte(c, m.world);
    ThreeOn(c.pc);
  }

  lemma ThreeOn(pc: Word)
    ensures Inc(pc) == (pc + 1) % 0x1_0000 && Inc(Inc(pc)) == (pc + 2) % 0x1_0000
    ensures Inc(Inc(Inc(pc))) == (pc + 3) % 0x1_0000
  {
  }

  // A call that is not taken reads its operand and goes on behind it.
  lemma CallFirst(c: CpuState, m: Moment)
    requires c.Valid() && m.Valid() && Fetches(c, m) && OpcodeAt(c, m.world).handler.CallIf?
    ensures Step(c, m).c.pc == (c.pc + 1) % 0x1_0000
  {
    hide Step, Table, Fetches, Fetched, Woken, ImeStep, Holds;
    Returns.FirstTick(c, m);
    Returns.OneByte(c, m.world);
  }

  lemma CallNext(c: CpuState, m: Moment)
    requires c.Valid() && m.Valid() && 1 <= c.curState <= 2 && !c.halted && Table(c.isCB, c.curOpcode).handler.CallIf?
    ensures Step(c, m).c.pc == (c.pc + 1) % 0x1_0000
  {
    hide Step, Table, Holds, Push8;
    Returns.MidTick(c, m);
  }

  lemma CallSkips(c: CpuState, ms: seq<Moment>)
    requires c.Valid() && AllValid(ms) && |ms| == 3 && Fetches(c, ms[0])
    requires var h := OpcodeAt(c, ms[0].world).handler; h.CallIf? && !Taken(h, c.f)
    ensures Steps(c, ms).c.pc == (c.pc + 3) % 0x1_0000
  {
    hide Steps, Step, OpcodeAt, Fetches, Schedule, Taken, Conditional;
    SkipPlan(OpcodeAt(c, ms[0].world), c.f);
    assert ms[..3] == ms;
    FirstOfThree(c, ms);
    CallOn(c, ms, 1);
    CallOn(c, ms, 2);
  }

  lemma FirstOfThree(c: CpuState, ms: seq<Moment>)
    requires c.Valid() && AllValid(ms) && |ms| >= 1 && Fetches(c, ms[0]) && OpcodeAt(c, ms[0].world).handler.CallIf?
    ensures AllValid(ms[..1]) && Steps(c, ms[..1]).c.pc == (c.pc + 1) % 0x1_0000
  {
    hide Steps, Step, OpcodeAt, Fetches;
    assert ms[..0] == [];
    NoSteps(c);
    OneMore(c, ms, 0);
    CallFirst(c, ms[0]);
  }

  lemma CallOn(c: CpuState, ms: seq<Moment>, k: nat)
    requires c.Valid() && AllValid(ms) && 1 <= k <= 2 && k < |ms| && Fetches(c, ms[0])
    requires OpcodeAt(c, ms[0].world).handler.CallIf? && k < |Plan(c, ms[0].world)|
    ensures AllValid(ms[..k]) && AllValid(ms[..k + 1])
    ensures Steps(c, ms[..k + 1]).c.pc == (Steps(c, ms[..k]).c.pc + 1) % 0x1_0000
  {
    hide Steps, Step, OpcodeAt, Fetches, Schedule, Taken, Table;
    OneMore(c, ms, k);
    Within(c, ms, k);
    CallNext(Steps(c, ms[..k]).c, ms[k]);
  }

  lemma SkipPlan(o: Opcode, f: bv8)
    requires o.handler.CallIf? && !Taken(o.handler, f)
    ensures |Schedule(o, Taken(o.handler, f))| == 3
  {
    hide Holds;
  }

  // ---- Returns

  predicate Pops(h: Handler, f: bv8)
  {
    h == Ret || h == Reti || (h.RetIf? && Taken(h, f))
  }

  lemma PopFirst(c: CpuState, m: Moment)
    requires c.Valid() && m.Valid() && Fetches(c, m)
    requires var h := OpcodeAt(c, m.world).handler; h == Ret || h == Reti || h.RetIf?
    ensures Step(c, m).c.sp == c.sp && Step(c, m).c.pc == (c.pc + 1) % 0x1_0000
  {
    hide Step, Table, Fetches, Fetched, Woken, ImeStep, Holds;
    Returns.FirstTick(c, m);
    Returns.OneByte(c, m.world);
  }

  lemma PopByte(c: CpuState, m: Moment)
    requires c.Valid() && m.Valid() && 1 <= c.curState <= 3 && !c.halted
    requires var h := Table(c.isCB, c.curOpcode).handler; h == Ret || h == Reti || h.RetIf?
    ensures var t := Step(c, m).c;
      && t.sp == (if c.curState < 3 then (c.sp + 1) % 0x1_0000 else c.sp)
      && t.cache == (if c.curState == 1 then m.world.mem[c.sp]
                     else if c.curState == 2 then Address(c.cache % 0x100, m.world.mem[c.sp]) else c.cache)
      && (c.curState == 3 ==> t.pc == c.cache)
  {
    hide Step, Table, Holds;
    Returns.MidTick(c, m);
  }

  lemma PopPlan(o: Opcode, f: bv8)
    requires Pops(o.handler, f)
    ensures |Schedule(o, Taken(o.handler, f))| == 4
  {
    hide Holds;
  }

  // A return that is taken goes to the address in the two bytes at the stack pointer, each as it was at its
  // tick, and leaves the stack pointer behind them.
  lemma ReturnsToAddress(c: CpuState, ms: seq<Moment>)
    requires c.Valid() && AllValid(ms) && |ms| == 4 && Fetches(c, ms[0])
    requires Pops(OpcodeAt(c, ms[0].world).handler, c.f)
    ensures var t := Steps(c, ms).c;
      && t.pc == Address(ms[1].world.mem[c.sp], ms[2].world.mem[(c.sp + 1) % 0x1_0000])
      && t.sp == (c.sp + 2) % 0x1_0000
  {
    hide Steps, Step, OpcodeAt, Fetches, Schedule, Taken, Pops;
    PopPlan(OpcodeAt(c, ms[0].world), c.f);
    IsPop(OpcodeAt(c, ms[0].world).handler, c.f);
    assert ms[..4] == ms;
    PopOnce(c, ms);
    PopOn(c, ms, 1);
    PopOn(c, ms, 2);
    PopOn(c, ms, 3);
  }

  lemma IsPop(h: Handler, f: bv8)
    requires Pops(h, f)
    ensures h == Ret || h == Reti || h.RetIf?
  {
  }

  lemma PopOnce(c: CpuState, ms: seq<Moment>)
    requires c.Valid() && AllValid(ms) && |ms| >= 1 && Fetches(c, ms[0])
    requires var h := OpcodeAt(c, ms[0].world).handler; h == Ret || h == Reti || h.RetIf?
    ensures AllValid(ms[..1]) && Steps(c, ms[..1]).c.sp == c.sp
  {
    hide Steps, Step, OpcodeAt, Fetches;
    assert ms[..0] == [];
    NoSteps(c);
    OneMore(c, ms, 0);
    PopFirst(c, ms[0]);
  }

  lemma PopOn(c: CpuState, ms: seq<Moment>, k: nat)
    requires c.Valid() && AllValid(ms) && 1 <= k <= 3 && k < |ms| && Fetches(c, ms[0]) && k < |Plan(c, ms[0].world)|
    requires var h := OpcodeAt(c, ms[0].world).handler; h == Ret || h == Reti || h.RetIf?
    ensures AllValid(ms[..k]) && AllValid(ms[..k + 1])
    ensures var s, t := Steps(c, ms[..k]).c, Steps(c, ms[..k + 1]).c;
      && t.sp == (if k < 3 then (s.sp + 1) % 0x1_0000 else s.sp)
      && t.cache == (if k == 1 then ms[k].world.mem[s.sp]
                     else if k == 2 then Address(s.cache % 0x100, ms[k].world.mem[s.sp]) else s.cache)
      && (k == 3 ==> t.pc == s.cache)
  {
    hide Steps, Step, OpcodeAt, Fetches, Schedule, Taken, Table;
    OneMore(c, ms, k);
    Within(c, ms, k);
    PopByte(Steps(c, ms[..k]).c, ms[k]);
  }

  // ---- By opcode

  // JP cc, CALL cc and RET cc, whatever devices do between their ticks: met or not, where they go and what
  // they cost.
  lemma ConditionalFlow(c: CpuState, ms: seq<Moment>)
    requires c.Valid() && AllValid(ms) && |ms| >= 1 && Fetches(c, ms[0]) && |ms| == |Plan(c, ms[0].world)|
    requires var op := OpcodeByte(c, ms[0].world); IsJumpIf(op) || IsCallIf(op) || IsRetIf(op)
    ensures var op, t := OpcodeByte(c, ms[0].world), Steps(c, ms);
      && t.c.curState == 0
      && |ms| == (if Met(op, c.f) then (if IsCallIf(op) then 5 else 4) else if IsCallIf(op) then 3 else 1)
      && t.cycles == (if Met(op, c.f) then (if IsJumpIf(op) then 16 else if IsCallIf(op) then 24 else 20)
                      else if IsRetIf(op) then 8 else 12)
      && t.c.pc == (if !Met(op, c.f) then (c.pc + if IsRetIf(op) then 1 else 3) % 0x1_0000
                    else if IsRetIf(op) then
                      Address(ms[1].world.mem[c.sp], ms[2].world.mem[(c.sp + 1) % 0x1_0000])
                    else Address(ms[1].world.mem[(c.pc + 1) % 0x1_0000], ms[2].world.mem[(c.pc + 2) % 0x1_0000]))
  {
    hide Steps, Table, Fetched, Fetches, Holds, BaseOp, Met, Taken;
    var op, o := OpcodeByte(c, ms[0].world), OpcodeAt(c, ms[0].world);
    Unprefixed(c, ms[0].world);
    ConditionalOpcodes(op);
    ConditionIs(op, c.f);
    InstructionCycles(c, ms);
    if Met(op, c.f) {
      if IsRetIf(op) {
        ReturnsToAddress(c, ms);
      } else {
        GoesToAddress(c, ms);
      }
    } else if IsCallIf(op) {
      CallSkips(c, ms);
    } else {
      OneStep(c, ms);
      if IsJumpIf(op) {
        JumpSkips(c, ms[0]);
      } else {
        PopFirst(c, ms[0]);
      }
    }
  }

  lemma OneStep(c: CpuState, ms: seq<Moment>)
    requires c.Valid() && AllValid(ms) && |ms| == 1
    ensures Steps(c, ms).c == Step(c, ms[0]).c
  {
    hide Step;
    assert ms[..0] == [];
    assert Steps(c, ms[..0]) == Ticked(c, 0);
  }

  // JP, CALL, RET and RETI.
  lemma UnconditionalFlow(c: CpuState, ms: seq<Moment>)
    requires c.Valid() && AllValid(ms) && |ms| >= 1 && Fetches(c, ms[0]) && |ms| == |Plan(c, ms[0].world)|
    requires var op := OpcodeByte(c, ms[0].world); op == 0xC3 || op == 0xCD || op == 0xC9 || op == 0xD9
    ensures var op, t := OpcodeByte(c, ms[0].world), Steps(c, ms);
      && t.c.curState == 0 && |ms| == (if op == 0xCD then 5 else 4) && t.cycles == (if op == 0xCD then 24 else 16)
      && t.c.pc == (if op == 0xC3 || op == 0xCD then
                      Address(ms[1].world.mem[(c.pc + 1) % 0x1_0000], ms[2].world.mem[(c.pc + 2) % 0x1_0000])
                    else Address(ms[1].world.mem[c.sp], ms[2].world.mem[(c.sp + 1) % 0x1_0000]))
  {
    hide Steps, Table, Fetched, Fetches, Holds, BaseOp, Taken;
    var op := OpcodeByte(c, ms[0].world);
    Unprefixed(c, ms[0].world);
    ControlOpcodes(op);
    ControlCycles(op);
    InstructionCycles(c, ms);
    if op == 0xC3 || op == 0xCD {
      GoesToAddress(c, ms);
    } else {
      ReturnsToAddress(c, ms);
    }
  }

  lemma ControlCycles(op: Byte)
    ensures op == 0xC3 || op == 0xC9 || op == 0xD9 ==> BaseOp(op).cycles == 16
    ensures op == 0xCD ==> BaseOp(op).cycles == 24
    ensures IsRst(op) ==> BaseOp(op).cycles == 16
  {
  }

  // JR cc: only the cycles, its target being the effect of a one-tick handler.
  lemma RelativeCycles(c: CpuState, m: Moment)
    requires c.Valid() && m.Valid() && Fetches(c, m) && IsJumpRelIf(OpcodeByte(c, m.world))
    ensures Step(c, m).c.curState == 0
    ensures Step(c, m).cycles == if Met(OpcodeByte(c, m.world), c.f) then 12 else 8
  {
    hide Step, Table, Fetched, Fetches, Holds, BaseOp, Met, Taken;
    var op := OpcodeByte(c, m.world);
    Unprefixed(c, m.world);
    ConditionalOpcodes(op);
    ConditionIs(op, c.f);
    FirstStep(c, m);
  }

  // RST n: one tick to 8 n, with the address behind it on the stack.
  lemma RstGoes(c: CpuState, m: Moment)
    requires c.Valid() && m.Valid() && Fetches(c, m) && IsRst(OpcodeByte(c, m.world))
    ensures var op, t := OpcodeByte(c, m.world), Step(c, m);
      t.cycles == 16 && t.c.curState == 0 && t.c.pc == 8 * (op / 8 % 8) && t.c.sp == (c.sp - 2) % 0x1_0000
  {
    hide Step, Table, Fetches, Fetched, Woken, ImeStep, Holds, BaseOp, Store;
    Unprefixed(c, m.world);
    ControlOpcodes(OpcodeByte(c, m.world));
    ControlCycles(OpcodeByte(c, m.world));
    Returns.FirstTick(c, m);
  }
}
