/** The opcode tables, as far as timing and control flow go. */
module Opcodes {
  import opened Bytes
  import opened FlagByte

  // The flag test of a conditional instruction.
  datatype Cond = Zero(on: bool) | CarryFlag(on: bool)

  predicate Holds(cond: Cond, f: bv8)
  {
    match cond
    case Zero(on) => On(f, FLAG_Z) == on
    case CarryFlag(on) => On(f, FLAG_C) == on
  }

  // How an instruction is handled. `Simple` stands for every handler that does its work in one tick
  // and leaves the processor's control state alone; `Staged` for every handler that walks through a
  // fixed number of ticks, with the cycles it reports for each.
  datatype Handler =
    | Simple
    | Staged(costs: seq<nat>)
    | JumpRel(cond: Cond)
    | Halt | Ei | Di
    | Ret | Reti | RetIf(cond: Cond)
    | Jump | JumpIf(cond: Cond)
    | Call | CallIf(cond: Cond)
    | Rst(target: Word)

  datatype Opcode = Opcode(handler: Handler, cycles: nat, branchCycles: nat)

  function Plain(cycles: nat): Opcode
  {
    Opcode(Simple, cycles, 0)
  }

  function LowOp(op: Byte): Opcode
    requires op < 0x40
  {
    if op % 8 == 0 then
      if op == 0x08 then Plain(20)
      else if op == 0x18 then Plain(12)
      else if op == 0x20 then Opcode(JumpRel(Zero(false)), 8, 12)
      else if op == 0x28 then Opcode(JumpRel(Zero(true)), 8, 12)
      else if op == 0x30 then Opcode(JumpRel(CarryFlag(false)), 8, 12)
      else if op == 0x38 then Opcode(JumpRel(CarryFlag(true)), 8, 12)
      else Plain(4)
    else if op % 16 == 1 then Plain(12)
    else if op % 16 == 9 || op % 8 == 3 then Plain(8)
    else if op % 8 == 2 then Opcode(Staged([4, 4]), 8, 0)
    else if op == 0x34 || op == 0x35 then Opcode(Staged([4, 4, 4]), 12, 0)
    else if op == 0x36 then Opcode(Staged([8, 4]), 12, 0)
    else if op % 8 == 6 then Plain(8)
    else Plain(4)
  }

  function MiddleOp(op: Byte): Opcode
    requires 0x40 <= op < 0xC0
  {
    if op == 0x76 then Opcode(Halt, 4, 0)
    else if op % 8 == 6 || 0x70 <= op < 0x78 then Opcode(Staged([4, 4]), 8, 0)
    else Plain(4)
  }

  function CondOf(op: Byte): Cond
  {
    if op / 8 % 4 == 0 then Zero(false)
    else if op / 8 % 4 == 1 then Zero(true)
    else if op / 8 % 4 == 2 then CarryFlag(false)
    else CarryFlag(true)
  }

  function HighOp(op: Byte): Opcode
    requires 0xC0 <= op
  {
    if op % 8 == 7 then Opcode(Rst(op - 0xC7), 16, 0)
    else if op % 8 == 6 then Plain(8)
    else if op % 16 == 1 then Plain(12)
    else if op % 16 == 5 then Plain(16)
    else if op < 0xE0 && op % 8 == 0 then Opcode(RetIf(CondOf(op)), 8, 20)
    else if op < 0xE0 && op % 8 == 2 then Opcode(JumpIf(CondOf(op)), 12, 16)
    else if op < 0xE0 && op % 8 == 4 then Opcode(CallIf(CondOf(op)), 12, 24)
    else if op == 0xC3 then Opcode(Jump, 16, 0)
    else if op == 0xC9 then Opcode(Ret, 16, 0)
    else if op == 0xCD then Opcode(Call, 24, 0)
    else if op == 0xD9 then Opcode(Reti, 16, 0)
    else if op == 0xE0 || op == 0xF0 then Opcode(Staged([8, 4]), 12, 0)
    else if op == 0xE2 || op == 0xF2 then Opcode(Staged([4, 4]), 8, 0)
    else if op == 0xE8 then Opcode(Staged([4, 12]), 16, 0)
    else if op == 0xEA || op == 0xFA then Opcode(Staged([12, 4]), 16, 0)
    else if op == 0xF3 then Opcode(Di, 4, 0)
    else if op == 0xF8 then Opcode(Staged([4, 4, 4]), 12, 0)
    else if op == 0xF9 then Plain(8)
    else if op == 0xFB then Opcode(Ei, 4, 0)
    else Plain(4)
  }

  // mOpTable
  function BaseOp(op: Byte): Opcode
  {
    if op < 0x40 then LowOp(op) else if op < 0xC0 then MiddleOp(op) else HighOp(op)
  }

  // mExtOpTable: the rotates, then BIT, RES and SET; every eighth works on (HL).
  function ExtOp(op: Byte): Opcode
  {
    if op % 8 != 6 then Plain(8)
    else if 0x40 <= op < 0x80 then Opcode(Staged([8, 4]), 12, 0)
    else Opcode(Staged([8, 4, 4]), 16, 0)
  }

  function Table(isCB: bool, op: Byte): Opcode
  {
    if isCB then ExtOp(op) else BaseOp(op)
  }

  // ---- The ticks of an instruction

  predicate IsCall(h: Handler)
  {
    h == Call || h.CallIf?
  }

  // The cycles of the ticks an instruction takes, in order, when its condition (if any) is `taken`.
  function Schedule(o: Opcode, taken: bool): (s: seq<nat>)
    ensures o.handler.Staged? || |s| >= 1
  {
    match o.handler
    case Staged(costs) => costs
    case JumpRel(_) => if taken then [o.branchCycles] else [o.cycles]
    case Ret => [4, 4, 4, 4]
    case Reti => [4, 4, 4, 4]
    case RetIf(_) => if taken then [8, 4, 4, 4] else [8]
    case Jump => [4, 4, 4, 4]
    case JumpIf(_) => if taken then [4, 4, 4, 4] else [12]
    case Call => [4, 4, 8, 4, 4]
    case CallIf(_) => if taken then [4, 4, 8, 4, 4] else [4, 4, 4]
    case _ => [o.cycles]
  }

  // Handlers that walk through states and set the cycles they report themselves.
  predicate MultiTick(h: Handler)
  {
    h.Staged? || h == Ret || h == Reti || h.RetIf? || h == Jump || h.JumpIf? || IsCall(h)
  }

  predicate Conditional(h: Handler)
  {
    h.JumpRel? || h.RetIf? || h.JumpIf? || h.CallIf?
  }

  function Total(s: seq<nat>): nat
  {
    if s == [] then 0 else s[0] + Total(s[1..])
  }

  lemma TotalCons(a: nat, rest: seq<nat>)
    ensures Total([a] + rest) == a + Total(rest)
  {
    assert ([a] + rest)[1..] == rest;
  }

  lemma TotalOf(a: nat, b: nat, c: nat, d: nat, e: nat)
    ensures Total([a]) == a && Total([a, b]) == a + b && Total([a, b, c]) == a + b + c
    ensures Total([a, b, c, d]) == a + b + c + d && Total([a, b, c, d, e]) == a + b + c + d + e
  {
    forall x: nat, y: nat, z: nat
      ensures Total([x]) == x && Total([x, y]) == x + y && Total([x, y, z]) == x + y + z
    {
      TotalCons(z, []);
      TotalCons(y, [z]);
      TotalCons(x, [y, z]);
      TotalCons(y, []);
      TotalCons(x, [y]);
      TotalCons(x, []);
      assert [z] + [] == [z] && [y] + [z] == [y, z] && [x] + [y, z] == [x, y, z];
      assert [y] + [] == [y] && [x] + [y] == [x, y] && [x] + [] == [x];
    }
    TotalCons(a, [b, c, d]);
    TotalCons(b, [c, d, e]);
    TotalCons(a, [b, c, d, e]);
    assert [a] + [b, c, d] == [a, b, c, d] && [b] + [c, d, e] == [b, c, d, e] && [a] + [b, c, d, e] == [a, b, c, d, e];
  }

  // Every opcode's ticks add up to the cycles in the table, the branch cycles when it branches, and
  // there are one to five of them.
  lemma ScheduleMatchesTable(isCB: bool, op: Byte, taken: bool)
    ensures var o := Table(isCB, op);
      && 1 <= |Schedule(o, taken)| <= 5
      && Total(Schedule(o, taken)) == if Conditional(o.handler) && taken then o.branchCycles else o.cycles
  {
    hide BaseOp, ExtOp;
    if isCB {
      ExtHandlers(op);
    } else {
      HandlersInTable(op);
    }
    ScheduleAddsUp(Table(isCB, op), taken);
  }

  lemma ScheduleAddsUp(o: Opcode, taken: bool)
    requires KnownCycles(o)
    ensures 1 <= |Schedule(o, taken)| <= 5
    ensures Total(Schedule(o, taken)) == if Conditional(o.handler) && taken then o.branchCycles else o.cycles
  {
    hide Total;
    TotalOf(4, 4, 4, 4, 0);
    TotalOf(4, 4, 8, 4, 4);
    TotalOf(8, 4, 4, 4, 0);
    TotalOf(12, 4, 0, 0, 0);
    TotalOf(4, 12, 0, 0, 0);
    TotalOf(o.cycles, 0, 0, 0, 0);
    TotalOf(o.branchCycles, 0, 0, 0, 0);
  }

  lemma ExtHandlers(op: Byte)
    ensures KnownCycles(ExtOp(op))
  {
  }

  // What a table can hold.
  predicate KnownCycles(o: Opcode)
  {
    match o.handler
    case Staged(costs) =>
      (costs == [4, 4] && o.cycles == 8) || (costs == [4, 4, 4] && o.cycles == 12)
      || (costs == [8, 4] && o.cycles == 12)
      || (costs == [4, 12] && o.cycles == 16) || (costs == [12, 4] && o.cycles == 16)
      || (costs == [8, 4, 4] && o.cycles == 16)
    case Ret => o.cycles == 16
    case Reti => o.cycles == 16
    case RetIf(_) => o.cycles == 8 && o.branchCycles == 20
    case Jump => o.cycles == 16
    case JumpIf(_) => o.cycles == 12 && o.branchCycles == 16
    case Call => o.cycles == 24
    case CallIf(_) => o.cycles == 12 && o.branchCycles == 24
    case _ => true
  }

  lemma HandlersInTable(op: Byte)
    ensures KnownCycles(BaseOp(op))
  {
  }
}
