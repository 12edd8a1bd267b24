/** The processor as the object it is. */
module CpuUnit {
  import opened Bytes
  import opened Interrupts
  import opened FlagByte
  import opened Opcodes
  import opened Register16
  import Cpu

  class Processor {
    const mrPC: Reg16
    const mrSP: Reg16
    const mIC: InterruptController
    var mMem: seq<Byte>
    var mF: bv8
    var mBranchTaken: bool
    var mCurOpcode: Byte
    var mIsCB: bool
    var mIsHalted: bool
    var mCurState: nat
    var mCycles: nat
    var mBrCycles: nat
    var mCache: Word
    var mEnablePending: bool
    var mEnableDelay: bool

    ghost predicate Valid()
      reads this
    {
      && mrPC.Valid() && mrSP.Valid() && |mMem| == Cpu.MEM_SIZE
      && mrPC.mHigh != mrSP.mHigh && mrPC.mHigh != mrSP.mLow && mrPC.mLow != mrSP.mHigh && mrPC.mLow != mrSP.mLow
    }

    ghost function Model(): Cpu.CpuState
      reads this, mrPC.mHigh, mrPC.mLow, mrSP.mHigh, mrSP.mLow, mIC
    {
      Cpu.CpuState(mrPC.Value(), mrSP.Value(), mF, mMem, mCurState, mCache, mIsCB, mCurOpcode,
                   mIsHalted, mEnablePending, mEnableDelay, mIC.Model())
    }

    constructor (ic: InterruptController, mem: seq<Byte>)
      requires |mem| == Cpu.MEM_SIZE
      ensures Valid() && mIC == ic && mMem == mem && mCurState == 0 && !mIsHalted && !mEnablePending && !mEnableDelay
    {
      mIC, mMem := ic, mem;
      mBranchTaken, mIsHalted, mCurState, mIsCB := false, false, 0, false;
      mEnablePending, mEnableDelay := false, false;
      mF := 0;
      var spHigh := new Reg8();
      var spLow := new Reg8();
      mrSP := new Reg16(spHigh, spLow);
      var pcHigh := new Reg8();
      var pcLow := new Reg8();
      mrPC := new Reg16(pcHigh, pcLow);
    }

    method ReadMem(addr: Word) returns (val: Byte)
      requires Valid()
      ensures val == mMem[addr]
    {
      val := mMem[addr];
    }

    method WriteMem(addr: Word, val: Byte)
      requires Valid()
      modifies this`mMem
      ensures Valid() && Model() == old(Model()).(mem := Cpu.Store(old(mMem), addr, val))
    {
      if Cpu.Ram(addr) {
        mMem := mMem[addr := val];
      }
    }

    method PushStack8(val: Byte)
      requires Valid()
      modifies this`mMem, mrSP.mHigh, mrSP.mLow
      ensures Valid() && Model() == Cpu.Push8(old(Model()), val)
    {
      var addr := mrSP.Decrement();
      WriteMem(addr, val);
    }

    method PushStack16(val: Word)
      requires Valid()
      modifies this`mMem, mrSP.mHigh, mrSP.mLow
      ensures Valid() && Model() == Cpu.Push16(old(Model()), val)
    {
      hide Cpu.Push8;
      PushStack8(val / 0x100);
      PushStack8(val % 0x100);
    }

    method PopStack8() returns (val: Byte)
      requires Valid()
      modifies mrSP.mHigh, mrSP.mLow
      ensures Valid() && Model() == old(Model()).(sp := Cpu.Inc(old(Model()).sp))
      ensures val == old(mMem)[old(mrSP.Value())]
    {
      var addr := mrSP.PostIncrement();
      val := ReadMem(addr);
    }

    method NextByte() returns (val: Byte)
      requires Valid()
      modifies mrPC.mHigh, mrPC.mLow
      ensures Valid() && Model() == old(Model()).(pc := Cpu.Inc(old(Model()).pc))
      ensures val == old(mMem)[old(mrPC.Value())]
    {
      var addr := mrPC.PostIncrement();
      val := ReadMem(addr);
    }

    method AdvanceState(cycles: nat)
      requires Valid()
      modifies this`mCycles, this`mCurState
      ensures Valid() && mCycles == cycles && Model() == Cpu.Advance(old(Model()), cycles).c
    {
      mCycles := cycles;
      mCurState := mCurState + 1;
    }

    method ResetState(cycles: nat)
      requires Valid()
      modifies this`mCycles, this`mCurState
      ensures Valid() && mCycles == cycles && Model() == Cpu.Finish(old(Model()), cycles).c
    {
      mCycles := cycles;
      mCurState := 0;
    }

    // The first three states of procCallSubstate read the target, the last two push the old PC.
    method ReadTarget(branch: bool)
      requires Valid() && mCurState < 3
      modifies this, mrPC.mHigh, mrPC.mLow
      ensures Valid() && Cpu.Ticked(Model(), mCycles) == Cpu.CallTick(old(Model()), branch)
      ensures mBranchTaken == old(mBranchTaken)
    {
      hide Cpu.Push8, Cpu.Inc;
      if mCurState == 0 {
        AdvanceState(4);
      } else if mCurState == 1 {
        mCache := NextByte();
        AdvanceState(4);
      } else {
        var high := NextByte();
        mCache := Cpu.WordOf(mCache % 0x100, high);
        if branch {
          AdvanceState(8);
        } else {
          ResetState(4);
        }
      }
    }

    method ProcCallSubstate(branch: bool)
      requires Valid()
      modifies this, mrPC.mHigh, mrPC.mLow, mrSP.mHigh, mrSP.mLow
      ensures Valid() && Cpu.Ticked(Model(), mCycles) == Cpu.CallTick(old(Model()), branch)
      ensures mBranchTaken == old(mBranchTaken)
    {
      hide Cpu.Push8;
      if mCurState < 3 {
        ReadTarget(branch);
      } else if mCurState == 3 {
        var tmp := mCache;
        mCache := mrPC.Read();
        mrPC.Write(tmp);
        PushStack8(mCache / 0x100);
        AdvanceState(4);
      } else {
        PushStack8(mCache % 0x100);
        ResetState(4);
      }
    }

    method OphRet()
      requires Valid()
      modifies this, mrPC.mHigh, mrPC.mLow, mrSP.mHigh, mrSP.mLow
      ensures Valid() && Cpu.Ticked(Model(), mCycles) == Cpu.RetTick(old(Model()))
      ensures mBranchTaken == old(mBranchTaken)
    {
      if mCurState == 0 {
        AdvanceState(4);
      } else if mCurState == 1 {
        mCache := PopStack8();
        AdvanceState(4);
      } else if mCurState == 2 {
        var high := PopStack8();
        mCache := Cpu.WordOf(mCache % 0x100, high);
        AdvanceState(4);
      } else {
        mrPC.Write(mCache);
        ResetState(4);
      }
    }

    method OphJump()
      requires Valid()
      modifies this, mrPC.mHigh, mrPC.mLow
      ensures Valid() && Cpu.Ticked(Model(), mCycles) == Cpu.JumpTick(old(Model()))
      ensures mBranchTaken == old(mBranchTaken)
    {
      if mCurState == 0 {
        AdvanceState(4);
      } else if mCurState == 1 {
        mCache := NextByte();
        AdvanceState(4);
      } else if mCurState == 2 {
        var high := NextByte();
        mCache := Cpu.WordOf(mCache % 0x100, high);
        AdvanceState(4);
      } else {
        mrPC.Write(mCache);
        ResetState(4);
      }
    }

    // The macros and POP AF, one after the other.
    method WriteFlags(writes: seq<FlagWrite>)
      requires Valid()
      modifies this`mF
      ensures Valid() && mF == AllStored(old(mF), writes)
    {
      var i := 0;
      while i < |writes|
        invariant 0 <= i <= |writes| && mF == AllStored(old(mF), writes[..i])
      {
        assert writes[..i + 1][..i] == writes[..i];
        mF := Stored(mF, writes[i]);
        i := i + 1;
      }
      assert writes[..i] == writes;
    }

    // A handler that does its work in one tick, or one stage of a staged one.
    method Apply(e: Cpu.Effect)
      requires Valid() && |e.mem| == Cpu.MEM_SIZE
      modifies this`mMem, this`mF, mrPC.mHigh, mrPC.mLow, mrSP.mHigh, mrSP.mLow, mIC`mIE, mIC`mIF
      ensures Valid() && Model() == Cpu.With(old(Model()), e)
    {
      mrPC.Write(e.pc);
      mrSP.Write(e.sp);
      WriteFlags(e.flagWrites);
      mMem := e.mem;
      mIC.mIE, mIC.mIF := e.ie, e.requested;
    }

    method OphStaged(costs: seq<nat>, e: Cpu.Effect)
      requires Valid() && |e.mem| == Cpu.MEM_SIZE
      modifies this, mrPC.mHigh, mrPC.mLow, mrSP.mHigh, mrSP.mLow, mIC`mIE, mIC`mIF
      ensures Valid() && mBranchTaken == old(mBranchTaken)
      ensures Cpu.Ticked(Model(), mCycles) == Cpu.Execute(old(Model()), Opcode(Staged(costs), 0, 0), e)
    {
      hide Cpu.With;
      Apply(e);
      var cost := if mCurState < |costs| then costs[mCurState] else 0;
      if mCurState + 1 < |costs| {
        AdvanceState(cost);
      } else {
        ResetState(cost);
      }
    }

    method OphRst(target: Word)
      requires Valid()
      modifies this`mMem, mrPC.mHigh, mrPC.mLow, mrSP.mHigh, mrSP.mLow
      ensures Valid() && Model() == Cpu.Push16(old(Model()), old(Model()).pc).(pc := target)
    {
      hide Cpu.Push16;
      var pc := mrPC.Read();
      PushStack16(pc);
      mrPC.Write(target);
    }

    method OphRetFlag(taken: bool)
      requires Valid()
      modifies this, mrPC.mHigh, mrPC.mLow, mrSP.mHigh, mrSP.mLow
      ensures Valid() && mBranchTaken == old(mBranchTaken)
      ensures Cpu.Ticked(Model(), mCycles) == Cpu.RetIfTick(old(Model()), taken)
    {
      hide Cpu.RetTick;
      if mCurState > 0 {
        OphRet();
      } else if taken {
        AdvanceState(8);
      } else {
        ResetState(8);
      }
    }

    method OphJumpFlag(taken: bool)
      requires Valid()
      modifies this, mrPC.mHigh, mrPC.mLow
      ensures Valid() && mBranchTaken == old(mBranchTaken)
      ensures Cpu.Ticked(Model(), mCycles) == Cpu.JumpIfTick(old(Model()), taken)
    {
      hide Cpu.JumpTick;
      if taken {
        OphJump();
      } else {
        var _ := mrPC.Increment();
        var _ := mrPC.Increment();
        ResetState(12);
      }
    }

    // The conditional handlers and those that reach into the stack.
    method ExecuteFlow(h: Handler)
      requires Valid() && (h == Ret || h == Reti || h.RetIf? || h == Jump || h.JumpIf? || h == Call || h.CallIf?)
      modifies this, mrPC.mHigh, mrPC.mLow, mrSP.mHigh, mrSP.mLow, mIC`mEnabled
      ensures Valid() && mBranchTaken == old(mBranchTaken)
      ensures forall o: Opcode, e: Cpu.Effect :: o.handler == h && |e.mem| == Cpu.MEM_SIZE ==>
                Cpu.Ticked(Model(), mCycles) == Cpu.Execute(old(Model()), o, e)
    {
      hide Cpu.CallTick, Cpu.RetTick, Cpu.JumpTick, Cpu.RetIfTick, Cpu.JumpIfTick, Holds;
      if h == Ret {
        OphRet();
      } else if h == Reti {
        OphRet();
        mIC.SetEnabled(true);
      } else if h.RetIf? {
        OphRetFlag(Holds(h.cond, mF));
      } else if h == Jump {
        OphJump();
      } else if h.JumpIf? {
        OphJumpFlag(Holds(h.cond, mF));
      } else if h == Call {
        ProcCallSubstate(true);
      } else {
        ProcCallSubstate(Holds(h.cond, mF));
      }
    }

    // The handler of the current opcode; a first tick starts out with the cycles of the table.
    method Handle(o: Opcode, e: Cpu.Effect) returns (cycles: nat)
      requires Valid() && |e.mem| == Cpu.MEM_SIZE && !mBranchTaken
      requires MultiTick(o.handler) || (mCycles == o.cycles && mBrCycles == o.branchCycles)
      modifies this, mrPC.mHigh, mrPC.mLow, mrSP.mHigh, mrSP.mLow, mIC
      ensures Valid() && Cpu.Ticked(Model(), cycles) == Cpu.Execute(old(Model()), o, e)
    {
      hide Cpu.CallTick, Cpu.RetTick, Cpu.JumpTick, Cpu.RetIfTick, Cpu.JumpIfTick, Cpu.Push16, Cpu.With, Holds,
           AllStored;
      match o.handler {
        case Simple => Apply(e);
        case JumpRel(cond) =>
          mBranchTaken := Holds(cond, mF);
          Apply(e);
        case Staged(costs) => OphStaged(costs, e);
        case Halt => mIsHalted := true;
        case Ei =>
          if !mEnablePending {
            mEnablePending, mEnableDelay := true, true;
          }
        case Di => mIC.SetEnabled(false);
        case Rst(target) => OphRst(target);
        case Ret => ExecuteFlow(o.handler);
        case Reti => ExecuteFlow(o.handler);
        case RetIf(_) => ExecuteFlow(o.handler);
        case Jump => ExecuteFlow(o.handler);
        case JumpIf(_) => ExecuteFlow(o.handler);
        case Call => ExecuteFlow(o.handler);
        case CallIf(_) => ExecuteFlow(o.handler);
      }
      cycles := if mBranchTaken then mBrCycles else mCycles;
    }

    // In the middle of an instruction the handler is one that walks through states.
    ghost predicate Ready()
      reads this
    {
      mCurState == 0 || MultiTick(Table(mIsCB, mCurOpcode).handler)
    }

    method StepIme()
      requires Valid()
      modifies this`mEnablePending, this`mEnableDelay, mIC`mEnabled
      ensures Valid() && Model() == Cpu.ImeStep(old(Model()))
    {
      if mCurState == 0 && mEnablePending {
        if mEnableDelay {
          mEnableDelay := false;
        } else {
          mIC.SetEnabled(true);
          mEnablePending := false;
        }
      }
    }

    method Enter(t: IrqType)
      requires Valid() && t != ItNone
      modifies this`mMem, mrPC.mHigh, mrPC.mLow, mrSP.mHigh, mrSP.mLow, mIC
      ensures Valid() && Model() == Cpu.AtHandler(old(Model()), t)
    {
      hide Cpu.Push16, Vector, Lines.Clear;
      mIC.SetEnabled(false);
      mIC.ClearInterrupt(t);
      var pc := mrPC.Read();
      PushStack16(pc);
      mrPC.Write(Vector(t));
    }

    // Wakes up for a pending interrupt, and enters its handler if interrupts are on.
    method TakeInterrupt() returns (taken: bool)
      requires Valid()
      modifies this`mIsHalted, this`mMem, mrPC.mHigh, mrPC.mLow, mrSP.mHigh, mrSP.mLow, mIC
      ensures Valid() && taken == Cpu.Dispatches(old(Model()))
      ensures Model() == if taken then Cpu.Dispatched(old(Model())) else Cpu.Woken(old(Model()))
    {
      hide Cpu.AtHandler, Lines.PendingFrom, Lines.IsPending, Reg16.Value;
      taken := false;
      var pending := mIC.IsPending();
      if mCurState == 0 && pending {
        mIsHalted := false;
        if mIC.mEnabled {
          var t := mIC.GetPending();
          if t != ItNone {
            Enter(t);
            taken := true;
          }
        }
      }
    }

    method Fetch()
      requires Valid() && mCurState == 0
      modifies this`mIsCB, this`mCurOpcode, mrPC.mHigh, mrPC.mLow
      ensures Valid() && Model() == Cpu.Fetched(old(Model()))
    {
      var addr := mrPC.Read();
      var op := ReadMem(addr);
      if op == 0xCB {
        addr := mrPC.Increment();
        op := ReadMem(addr);
        mIsCB := true;
      } else {
        mIsCB := false;
      }
      mCurOpcode := op;
      var _ := mrPC.Increment();
    }

    // A tick that takes no interrupt.
    method RunOn(e: Cpu.Effect) returns (cycles: nat)
      requires Valid() && Ready() && |e.mem| == Cpu.MEM_SIZE && !mBranchTaken
      modifies this, mrPC.mHigh, mrPC.mLow, mrSP.mHigh, mrSP.mLow, mIC
      ensures Valid() && Ready()
      ensures Cpu.Ticked(Model(), cycles) == Cpu.Run(old(Model()), e)
    {
      hide Cpu.Execute, Cpu.Fetched, Table, MultiTick, Reg16.Value, InterruptController.Model, Holds;
      if mIsHalted {
        return Cpu.HALT_CYCLES;
      }
      if mCurState == 0 {
        Fetch();
        mCycles, mBrCycles := Table(mIsCB, mCurOpcode).cycles, Table(mIsCB, mCurOpcode).branchCycles;
      } else {
        mCycles, mBrCycles := 0, 0;
      }
      ghost var c := Model();
      cycles := Handle(Table(mIsCB, mCurOpcode), e);
      Cpu.KeepsOpcode(c, Table(c.isCB, c.curOpcode), e);
      if c.curState == 0 {
        Cpu.SingleTickEnds(c, Table(c.isCB, c.curOpcode), e);
      }
    }

    method Tick(e: Cpu.Effect) returns (cycles: nat)
      requires Valid() && Ready() && |e.mem| == Cpu.MEM_SIZE
      modifies this, mrPC.mHigh, mrPC.mLow, mrSP.mHigh, mrSP.mLow, mIC
      ensures Valid() && Ready()
      ensures Cpu.Ticked(Model(), cycles) == Cpu.Tick(old(Model()), e)
    {
      hide Cpu.Run, Cpu.Dispatched, Cpu.Dispatches, Cpu.ImeStep, Cpu.Woken, Table, MultiTick, Reg16.Value;
      mBranchTaken := false;
      StepIme();
      var taken := TakeInterrupt();
      if taken {
        cycles := Cpu.DISPATCH_CYCLES;
      } else {
        cycles := RunOn(e);
      }
    }
  }
}
