/** What each opcode writes into F, as a list of macro uses in the order its handler makes them. */
module FlagScripts {
  import opened Bytes
  import opened FlagByte

  const Z := Flags(true, false, false, false)
  const N := Flags(false, true, false, false)
  const H := Flags(false, false, true, false)
  const C := Flags(false, false, false, true)
  const ZN := Flags(true, true, false, false)
  const NH := Flags(false, true, true, false)
  const NONE := Flags(false, false, false, false)
  const ALL := Flags(true, true, true, true)

  // A macro use: a fixed one, a choice between SET_FLAG and CLEAR_FLAG, a SET_FLAG under a condition, or
  // the byte that POP AF takes from the stack.
  datatype Deed = Does(w: FlagWrite) | Decides(mask: Flags) | MaySet(mask: Flags) | Pops

  // The writes of one execution are those the script allows.
  predicate Conforms(ws: seq<FlagWrite>, script: seq<Deed>)
    decreases |script|
  {
    if script == [] then ws == []
    else if ws == [] then script[0].MaySet? && Conforms(ws, script[1..])
    else
      match script[0]
      case Does(w) => ws[0] == w && Conforms(ws[1..], script[1..])
      case Decides(m) => (ws[0] == SetFlag(m) || ws[0] == ClearFlag(m)) && Conforms(ws[1..], script[1..])
      case MaySet(m) => (ws[0] == SetFlag(m) && Conforms(ws[1..], script[1..])) || Conforms(ws, script[1..])
      case Pops => ws[0].PopF? && Conforms(ws[1..], script[1..])
  }

  // ---- The helpers and handlers that write F

  const ADDING := [Decides(Z), Decides(Z), Decides(C), Decides(H)]
  const SUBTRACTING := [Decides(Z), Decides(C), Decides(H)]
  const ADD_SCRIPT := [Does(ClearFlag(N))] + ADDING
  const SUB_SCRIPT := [Does(SetFlag(N))] + SUBTRACTING
  const AND_SCRIPT := [Does(ClearFlags), Decides(Z), Does(SetFlag(H))]
  const OR_SCRIPT := [Does(ClearFlags), Decides(Z)]
  const INC_SCRIPT := [Decides(Z), Decides(H), Does(ClearFlag(N))]
  const DEC_SCRIPT := [Decides(Z), Decides(H), Does(SetFlag(N))]
  const ADD_HL_SCRIPT := [Does(ClearFlag(N)), Decides(C), Decides(H)]
  const ADD_SP_SCRIPT := [Does(ClearFlag(ZN)), Decides(H), Decides(C)]
  const ROTATE_A_SCRIPT := [Does(ClearFlags), MaySet(C)]
  const ROTATE_SCRIPT := ROTATE_A_SCRIPT + [Decides(Z)]
  const SHIFT_SCRIPT := [Does(ClearFlags), Decides(C), Decides(Z)]
  const BIT_SCRIPT := [Does(ClearFlag(N)), Does(SetFlag(H)), Decides(Z)]
  const DAA_SCRIPT := [MaySet(C), Does(ClearFlag(H)), Decides(Z)]
  const CPL_SCRIPT := [Does(SetFlag(NH))]
  const SCF_SCRIPT := [Does(ClearFlag(NH)), Does(SetFlag(C))]
  const CCF_SCRIPT := [Does(ClearFlag(NH)), Does(ToggleFlag(C))]

  // The eight operations on A, in the order of the opcode table.
  function AluScript(row: nat): seq<Deed>
  {
    if row < 2 then ADD_SCRIPT
    else if row < 4 || row == 7 then SUB_SCRIPT
    else if row == 4 then AND_SCRIPT
    else OR_SCRIPT
  }

  function LowScript(op: Byte): seq<Deed>
  {
    if op % 8 == 4 then INC_SCRIPT
    else if op % 8 == 5 then DEC_SCRIPT
    else if op % 16 == 9 then ADD_HL_SCRIPT
    else if op % 8 != 7 then []
    else if op < 0x20 then ROTATE_A_SCRIPT
    else if op == 0x27 then DAA_SCRIPT
    else if op == 0x2F then CPL_SCRIPT
    else if op == 0x37 then SCF_SCRIPT
    else CCF_SCRIPT
  }

  function BaseScript(op: Byte): seq<Deed>
  {
    if op < 0x40 then LowScript(op)
    else if op < 0x80 then []
    else if op < 0xC0 then AluScript(op / 8 % 8)
    else if op % 8 == 6 then AluScript(op / 8 % 8)
    else if op == 0xE8 || op == 0xF8 then ADD_SP_SCRIPT
    else if op == 0xF1 then [Pops]
    else []
  }

  function ExtScript(op: Byte): seq<Deed>
  {
    if op < 0x20 then ROTATE_SCRIPT
    else if op < 0x40 then (if op / 8 == 6 then OR_SCRIPT else SHIFT_SCRIPT)
    else if op < 0x80 then BIT_SCRIPT
    else []
  }

  function Script(isCB: bool, op: Byte): seq<Deed>
  {
    if isCB then ExtScript(op) else BaseScript(op)
  }

  // Which script an arithmetic opcode has: additions, subtractions with comparisons, AND, OR with XOR, and DAA.
  lemma ArithmeticScripts(op: Byte)
    ensures 0x80 <= op <= 0x8F || op == 0xC6 || op == 0xCE ==> Script(false, op) == ADD_SCRIPT
    ensures 0x90 <= op <= 0x9F || 0xB8 <= op <= 0xBF || op == 0xD6 || op == 0xDE || op == 0xFE ==>
              Script(false, op) == SUB_SCRIPT
    ensures 0xA0 <= op <= 0xA7 || op == 0xE6 ==> Script(false, op) == AND_SCRIPT
    ensures 0xA8 <= op <= 0xB7 || op == 0xEE || op == 0xF6 ==> Script(false, op) == OR_SCRIPT
    ensures op == 0x27 ==> Script(false, op) == DAA_SCRIPT
    ensures op == 0xF1 ==> Script(false, op) == [Pops]
  {
  }

  // ---- The flags a script can change

  function Both(a: Flags, b: Flags): Flags
  {
    Flags(a.z || b.z, a.n || b.n, a.h || b.h, a.c || b.c)
  }

  function WriteTouches(w: FlagWrite): Flags
  {
    match w
    case SetFlag(m) => m
    case ClearFlag(m) => m
    case ToggleFlag(m) => m
    case ClearFlags => ALL
    case PopF(_) => ALL
  }

  function DeedTouches(d: Deed): Flags
  {
    match d
    case Does(w) => WriteTouches(w)
    case Decides(m) => m
    case MaySet(m) => m
    case Pops => ALL
  }

  function Touches(script: seq<Deed>): Flags
  {
    if script == [] then NONE else Both(DeedTouches(script[0]), Touches(script[1..]))
  }

  // The flags outside the mask are as they were.
  predicate Spared(f: Flags, g: Flags, touched: Flags)
  {
    (f.z == g.z || touched.z) && (f.n == g.n || touched.n) && (f.h == g.h || touched.h) && (f.c == g.c || touched.c)
  }

  lemma WriteSpares(f: Flags, w: FlagWrite, touched: Flags)
    requires Both(touched, WriteTouches(w)) == touched
    ensures Spared(f, Noted(f, w), touched)
  {
    hide Tested;
  }

  // All the writes of a conforming execution lie within the mask of its script.
  ghost predicate Within(ws: seq<FlagWrite>, touched: Flags)
  {
    forall i :: 0 <= i < |ws| ==> Both(touched, WriteTouches(ws[i])) == touched
  }

  lemma {:induction false} ConformingIsWithin(ws: seq<FlagWrite>, script: seq<Deed>)
    requires Conforms(ws, script)
    ensures Within(ws, Touches(script))
    decreases |script|
  {
    if script != [] {
      var rest := script[1..];
      if ws != [] && Conforms(ws[1..], rest) && !(script[0].MaySet? && Conforms(ws, rest)) {
        ConformingIsWithin(ws[1..], rest);
        assert forall i :: 1 <= i < |ws| ==> ws[i] == ws[1..][i - 1];
      } else {
        ConformingIsWithin(ws, rest);
      }
    }
  }

  lemma {:induction false} WritesSpare(b: bv8, ws: seq<FlagWrite>, touched: Flags)
    requires b & 0x0f == 0 && Within(ws, touched)
    ensures Spared(Tested(b), Tested(AllStored(b, ws)), touched)
  {
    hide Stored, Noted, Tested;
    if ws != [] {
      var front, last := ws[..|ws| - 1], ws[|ws| - 1];
      WritesSpare(b, front, touched);
      LowNibbleStaysZero(b, front);
      WriteShows(AllStored(b, front), last);
      WriteSpares(Tested(AllStored(b, front)), last, touched);
    }
  }

  // What an execution of an opcode leaves of F: a zero low nibble and every flag its script does not name.
  lemma ScriptSpares(b: bv8, isCB: bool, op: Byte, ws: seq<FlagWrite>)
    requires b & 0x0f == 0 && Conforms(ws, Script(isCB, op))
    ensures AllStored(b, ws) & 0x0f == 0
    ensures Spared(Tested(b), Tested(AllStored(b, ws)), Touches(Script(isCB, op)))
  {
    hide Conforms, Script, Touches, Tested, Stored, Within;
    ConformingIsWithin(ws, Script(isCB, op));
    WritesSpare(b, ws, Touches(Script(isCB, op)));
    LowNibbleStaysZero(b, ws);
  }
}
