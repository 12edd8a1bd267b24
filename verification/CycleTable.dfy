/** The cycles of the unprefixed opcodes, row by row of sixteen, as the opcode list has them; 0 where there is no
    such opcode. */
module CycleTable {
  import opened Bytes
  import opened Opcodes

  type Row = r: seq<nat> | |r| == 16 witness seq(16, i => 0)

  const ROWS: seq<Row> := [
    [4, 12, 8, 8, 4, 4, 8, 4, 20, 8, 8, 8, 4, 4, 8, 4],
    [4, 12, 8, 8, 4, 4, 8, 4, 12, 8, 8, 8, 4, 4, 8, 4],
    [8, 12, 8, 8, 4, 4, 8, 4, 8, 8, 8, 8, 4, 4, 8, 4],
    [8, 12, 8, 8, 12, 12, 12, 4, 8, 8, 8, 8, 4, 4, 8, 4],
    [4, 4, 4, 4, 4, 4, 8, 4, 4, 4, 4, 4, 4, 4, 8, 4],
    [4, 4, 4, 4, 4, 4, 8, 4, 4, 4, 4, 4, 4, 4, 8, 4],
    [4, 4, 4, 4, 4, 4, 8, 4, 4, 4, 4, 4, 4, 4, 8, 4],
    [8, 8, 8, 8, 8, 8, 4, 8, 4, 4, 4, 4, 4, 4, 8, 4],
    [4, 4, 4, 4, 4, 4, 8, 4, 4, 4, 4, 4, 4, 4, 8, 4],
    [4, 4, 4, 4, 4, 4, 8, 4, 4, 4, 4, 4, 4, 4, 8, 4],
    [4, 4, 4, 4, 4, 4, 8, 4, 4, 4, 4, 4, 4, 4, 8, 4],
    [4, 4, 4, 4, 4, 4, 8, 4, 4, 4, 4, 4, 4, 4, 8, 4],
    [8, 12, 12, 16, 12, 16, 8, 16, 8, 16, 12, 4, 12, 24, 8, 16],
    [8, 12, 12, 0, 12, 16, 8, 16, 8, 16, 12, 0, 12, 0, 8, 16],
    [12, 12, 8, 0, 0, 16, 8, 16, 16, 4, 16, 0, 0, 0, 8, 16],
    [12, 12, 8, 4, 0, 16, 8, 16, 12, 8, 16, 4, 0, 0, 8, 16]
  ]

  function CyclesOf(op: Byte): nat
  {
    ROWS[op / 16][op % 16]
  }

  lemma Row0(op: Byte)
    requires 0x00 <= op < 0x10
    ensures CyclesOf(op) != 0 ==> BaseOp(op).cycles == CyclesOf(op)
  {
    assert ROWS[0] == [4, 12, 8, 8, 4, 4, 8, 4, 20, 8, 8, 8, 4, 4, 8, 4];
  }

  lemma Row1(op: Byte)
    requires 0x10 <= op < 0x20
    ensures CyclesOf(op) != 0 ==> BaseOp(op).cycles == CyclesOf(op)
  {
    assert ROWS[1] == [4, 12, 8, 8, 4, 4, 8, 4, 12, 8, 8, 8, 4, 4, 8, 4];
  }

  lemma Row2(op: Byte)
    requires 0x20 <= op < 0x30
    ensures CyclesOf(op) != 0 ==> BaseOp(op).cycles == CyclesOf(op)
  {
    assert ROWS[2] == [8, 12, 8, 8, 4, 4, 8, 4, 8, 8, 8, 8, 4, 4, 8, 4];
  }

  lemma Row3(op: Byte)
    requires 0x30 <= op < 0x40
    ensures CyclesOf(op) != 0 ==> BaseOp(op).cycles == CyclesOf(op)
  {
    assert ROWS[3] == [8, 12, 8, 8, 12, 12, 12, 4, 8, 8, 8, 8, 4, 4, 8, 4];
  }

  lemma LowRows(op: Byte)
    requires 0x00 <= op < 0x40
    ensures CyclesOf(op) != 0 ==> BaseOp(op).cycles == CyclesOf(op)
  {
    hide BaseOp, CyclesOf;
    if op < 0x10 {
      Row0(op);
    } else if op < 0x20 {
      Row1(op);
    } else if op < 0x30 {
      Row2(op);
    } else {
      Row3(op);
    }
  }

  lemma MiddleRows(op: Byte)
    requires 0x40 <= op < 0x80
    ensures CyclesOf(op) != 0 ==> BaseOp(op).cycles == CyclesOf(op)
  {
    assert ROWS[4] == [4, 4, 4, 4, 4, 4, 8, 4, 4, 4, 4, 4, 4, 4, 8, 4];
    assert ROWS[5] == [4, 4, 4, 4, 4, 4, 8, 4, 4, 4, 4, 4, 4, 4, 8, 4];
    assert ROWS[6] == [4, 4, 4, 4, 4, 4, 8, 4, 4, 4, 4, 4, 4, 4, 8, 4];
    assert ROWS[7] == [8, 8, 8, 8, 8, 8, 4, 8, 4, 4, 4, 4, 4, 4, 8, 4];
  }

  lemma AluRows(op: Byte)
    requires 0x80 <= op < 0xC0
    ensures CyclesOf(op) != 0 ==> BaseOp(op).cycles == CyclesOf(op)
  {
    assert ROWS[8] == [4, 4, 4, 4, 4, 4, 8, 4, 4, 4, 4, 4, 4, 4, 8, 4];
    assert ROWS[9] == [4, 4, 4, 4, 4, 4, 8, 4, 4, 4, 4, 4, 4, 4, 8, 4];
    assert ROWS[10] == [4, 4, 4, 4, 4, 4, 8, 4, 4, 4, 4, 4, 4, 4, 8, 4];
    assert ROWS[11] == [4, 4, 4, 4, 4, 4, 8, 4, 4, 4, 4, 4, 4, 4, 8, 4];
  }

  lemma RowC(op: Byte)
    requires 0xC0 <= op < 0xD0
    ensures CyclesOf(op) != 0 ==> BaseOp(op).cycles == CyclesOf(op)
  {
    assert ROWS[12] == [8, 12, 12, 16, 12, 16, 8, 16, 8, 16, 12, 4, 12, 24, 8, 16];
  }

  lemma RowD(op: Byte)
    requires 0xD0 <= op < 0xE0
    ensures CyclesOf(op) != 0 ==> BaseOp(op).cycles == CyclesOf(op)
  {
    assert ROWS[13] == [8, 12, 12, 0, 12, 16, 8, 16, 8, 16, 12, 0, 12, 0, 8, 16];
  }

  lemma RowE(op: Byte)
    requires 0xE0 <= op < 0xF0
    ensures CyclesOf(op) != 0 ==> BaseOp(op).cycles == CyclesOf(op)
  {
    assert ROWS[14] == [12, 12, 8, 0, 0, 16, 8, 16, 16, 4, 16, 0, 0, 0, 8, 16];
  }

  lemma RowF(op: Byte)
    requires 0xF0 <= op < 0x100
    ensures CyclesOf(op) != 0 ==> BaseOp(op).cycles == CyclesOf(op)
  {
    assert ROWS[15] == [12, 12, 8, 4, 0, 16, 8, 16, 12, 8, 16, 4, 0, 0, 8, 16];
  }

  lemma HighRows(op: Byte)
    requires 0xC0 <= op < 0x100
    ensures CyclesOf(op) != 0 ==> BaseOp(op).cycles == CyclesOf(op)
  {
    hide BaseOp, CyclesOf;
    if op < 0xD0 {
      RowC(op);
    } else if op < 0xE0 {
      RowD(op);
    } else if op < 0xF0 {
      RowE(op);
    } else {
      RowF(op);
    }
  }

  // The table of the step machine has these cycles.
  lemma BaseCycles(op: Byte)
    ensures CyclesOf(op) != 0 ==> BaseOp(op).cycles == CyclesOf(op)
  {
    hide BaseOp, CyclesOf;
    if op < 0x40 {
      LowRows(op);
    } else if op < 0x80 {
      MiddleRows(op);
    } else if op < 0xC0 {
      AluRows(op);
    } else {
      HighRows(op);
    }
  }

  // Prefixed opcodes take 8 cycles on a register, and on (HL) 12 for BIT and 16 for the others.
  lemma ExtCycles(op: Byte)
    ensures ExtOp(op).cycles == if op % 8 != 6 then 8 else if 0x40 <= op <= 0x7F then 12 else 16
  {
  }

  // The opcodes that work in several ticks without branching, and what each tick reports.
  lemma StagedTicks(op: Byte)
    ensures var h := BaseOp(op).handler;
      && (h.Staged? ==> |h.costs| == 2 || |h.costs| == 3)
      && (op == 0x34 || op == 0x35 || op == 0xF8 ==> h == Staged([4, 4, 4]))
      && (op == 0x36 || op == 0xE0 || op == 0xF0 ==> h == Staged([8, 4]))
      && (op == 0xEA || op == 0xFA ==> h == Staged([12, 4])) && (op == 0xE8 ==> h == Staged([4, 12]))
      && (op < 0x40 && op % 8 == 2 ==> h == Staged([4, 4])) && (op == 0xE2 || op == 0xF2 ==> h == Staged([4, 4]))
      && (0x40 <= op < 0xC0 && (op % 8 == 6 || 0x70 <= op < 0x78) && op != 0x76 ==> h == Staged([4, 4]))
    ensures op % 8 == 6 ==>
      ExtOp(op).handler == Staged(if 0x40 <= op <= 0x7F then [8, 4] else [8, 4, 4])
  {
  }
}
