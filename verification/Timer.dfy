/** The timer: a falling-edge detector on one bit of the system counter, against its closed form. */
module Timer {
  import opened Bytes
  import opened Interrupts

  const DIV_ADDR := 0xFF04
  const TIMA_ADDR := 0xFF05
  const TMA_ADDR := 0xFF06
  const TAC_ADDR := 0xFF07

  datatype TimerState = TimerState(started: bool, tima: Byte, tma: Byte, tac: Byte, sysTick: Word, muxBit: nat) {

    // A running timer watches one of the four bits that TAC can select.
    predicate Valid()
    {
      started ==> muxBit == 0x200 || muxBit == 0x80 || muxBit == 0x20 || muxBit == 8
    }
  }

  // value & bit, as a truth value
  predicate Holds(value: Word, bit: nat)
    requires bit > 0
  {
    value / bit % 2 == 1
  }

  // One cycle of a running timer: the counter goes up, and a falling edge of the watched bit
  // counts TIMA up; from 255 it goes to TMA with an interrupt request.
  predicate Edge(t: TimerState)
    requires t.Valid() && t.started
  {
    var next := (t.sysTick + 1) % 0x1_0000;
    Holds(t.sysTick, t.muxBit) != Holds(next, t.muxBit) && !Holds(next, t.muxBit)
  }

  predicate Overflow(t: TimerState)
    requires t.Valid() && t.started
  {
    Edge(t) && t.tima == 0xff
  }

  function Cycle(t: TimerState): (t': TimerState)
    requires t.Valid() && t.started
    ensures t'.Valid() && t'.started
  {
    t.(sysTick := (t.sysTick + 1) % 0x1_0000,
       tima := if Overflow(t) then t.tma else if Edge(t) then t.tima + 1 else t.tima)
  }

  // The state after n cycles, and the number of requests made on the way.
  datatype Outcome = Outcome(t: TimerState, requests: nat)

  function Cycles(t: TimerState, n: nat): (r: Outcome)
    requires t.Valid() && t.started
    ensures r.t.Valid() && r.t.started
  {
    if n == 0 then Outcome(t, 0)
    else
      var r := Cycles(t, n - 1);
      Outcome(Cycle(r.t), r.requests + if Overflow(r.t) then 1 else 0)
  }

  // IoTimer::tick
  function Ticked(t: TimerState, n: nat): (r: Outcome)
    requires t.Valid()
    ensures r.t.Valid() && r.t.started == t.started
  {
    if t.started then Cycles(t, n) else Outcome(t.(sysTick := (t.sysTick + n) % 0x1_0000), 0)
  }

  // ---- The closed form

  // How often the watched bit has fallen since the counter stood at zero.
  function Falls(count: nat, muxBit: nat): nat
    requires muxBit > 0
  {
    ModBound(count, 2 * muxBit);
    count / (2 * muxBit)
  }

  // TIMA after counting `total` from zero, reloading from TMA on every overflow.
  function Reloaded(total: nat, tma: Byte): Byte
  {
    if total < 0x100 then total
    else
      ModBound(total - 0x100, 0x100 - tma);
      tma + (total - 0x100) % (0x100 - tma)
  }

  function Overflows(total: nat, tma: Byte): nat
  {
    if total < 0x100 then 0
    else
      ModBound(total - 0x100, 0x100 - tma);
      1 + (total - 0x100) / (0x100 - tma)
  }

  lemma ModBound(x: nat, m: nat)
    requires m > 0
    ensures 0 <= x % m < m && 0 <= x / m
  {
  }

  lemma MulAtLeast(a: int, m: nat)
    requires a >= 1
    ensures a * m >= m
  {
    assert a * m == m + (a - 1) * m;
    MulNonNeg(a - 1, m);
  }

  lemma MulNonNeg(a: nat, m: nat)
    ensures a * m >= 0
  {
  }

  lemma DivModUnique(x: nat, m: nat, q: nat, r: nat)
    requires 0 <= r < m && x == q * m + r
    ensures x / m == q && x % m == r
  {
    var q', r' := x / m, x % m;
    assert x == q' * m + r';
    assert (q - q') * m == r' - r;
    if q > q' {
      MulAtLeast(q - q', m);
    } else if q < q' {
      MulAtLeast(q' - q, m);
    }
  }

  lemma ModStep(x: nat, m: nat)
    requires m > 0
    ensures (x + 1) % m == if x % m + 1 == m then 0 else x % m + 1
    ensures (x + 1) / m == x / m + if x % m + 1 == m then 1 else 0
  {
    var q, r := x / m, x % m;
    assert x == q * m + r;
    if r + 1 == m {
      assert x + 1 == (q + 1) * m + 0;
      DivModUnique(x + 1, m, q + 1, 0);
    } else {
      DivModUnique(x + 1, m, q, r + 1);
    }
  }

  // One more count.
  lemma ReloadStep(total: nat, tma: Byte)
    ensures Reloaded(total + 1, tma) == if Reloaded(total, tma) == 0xff then tma else Reloaded(total, tma) + 1
    ensures Overflows(total + 1, tma) == Overflows(total, tma) + if Reloaded(total, tma) == 0xff then 1 else 0
  {
    if total == 0xff {
      DivModUnique(0, 0x100 - tma, 0, 0);
    } else if total >= 0x100 {
      ModStep(total - 0x100, 0x100 - tma);
    }
  }

  // The detector fires exactly when the period divides the next count, wrapped or not.
  lemma EdgeIsPeriod(t: TimerState, count: nat)
    requires t.Valid() && t.started && t.sysTick == count % 0x1_0000
    ensures Falls(count + 1, t.muxBit) == Falls(count, t.muxBit) + if Edge(t) then 1 else 0
  {
    if t.muxBit == 0x200 {
      Edge1024(count);
    } else if t.muxBit == 0x80 {
      Edge256(count);
    } else if t.muxBit == 0x20 {
      Edge64(count);
    } else {
      Edge16(count);
    }
  }

  ghost predicate EdgeLaw(count: nat, bit: nat)
    requires bit > 0
  {
    var s := count % 0x1_0000;
    var next := (s + 1) % 0x1_0000;
    (count + 1) / (2 * bit) == count / (2 * bit)
      + if Holds(s, bit) != Holds(next, bit) && !Holds(next, bit) then 1 else 0
  }

  lemma Edge1024(count: nat)
    ensures EdgeLaw(count, 512)
  {
    hide Holds;
    Wrap1024(count);
    Wrap1024(count + 1);
    CounterStep(count);
    UpperHalf1024(count % 0x1_0000);
    UpperHalf1024((count + 1) % 0x1_0000);
    Quotient1024(count);
  }

  lemma Wrap1024(count: nat)
    ensures count % 0x1_0000 % 1024 == count % 1024
  {
    var w, s := count / 0x1_0000, count % 0x1_0000;
    assert count == 1024 * (64 * w) + s;
  }

  lemma UpperHalf1024(s: Word)
    ensures Holds(s, 512) <==> s % 1024 >= 512
  {
  }

  lemma Quotient1024(count: nat)
    ensures (count + 1) / 1024 == count / 1024 + if count % 1024 == 1023 then 1 else 0
    ensures (count + 1) % 1024 == if count % 1024 == 1023 then 0 else count % 1024 + 1
  {
  }

  lemma Edge256(count: nat)
    ensures EdgeLaw(count, 128)
  {
    hide Holds;
    Wrap256(count);
    Wrap256(count + 1);
    CounterStep(count);
    UpperHalf256(count % 0x1_0000);
    UpperHalf256((count + 1) % 0x1_0000);
    Quotient256(count);
  }

  lemma Wrap256(count: nat)
    ensures count % 0x1_0000 % 256 == count % 256
  {
    var w, s := count / 0x1_0000, count % 0x1_0000;
    assert count == 256 * (256 * w) + s;
  }

  lemma UpperHalf256(s: Word)
    ensures Holds(s, 128) <==> s % 256 >= 128
  {
  }

  lemma Quotient256(count: nat)
    ensures (count + 1) / 256 == count / 256 + if count % 256 == 255 then 1 else 0
    ensures (count + 1) % 256 == if count % 256 == 255 then 0 else count % 256 + 1
  {
  }

  lemma Edge64(count: nat)
    ensures EdgeLaw(count, 32)
  {
    hide Holds;
    Wrap64(count);
    Wrap64(count + 1);
    CounterStep(count);
    UpperHalf64(count % 0x1_0000);
    UpperHalf64((count + 1) % 0x1_0000);
    Quotient64(count);
  }

  lemma Wrap64(count: nat)
    ensures count % 0x1_0000 % 64 == count % 64
  {
    var w, s := count / 0x1_0000, count % 0x1_0000;
    assert count == 64 * (1024 * w) + s;
  }

  lemma UpperHalf64(s: Word)
    ensures Holds(s, 32) <==> s % 64 >= 32
  {
  }

  lemma Quotient64(count: nat)
    ensures (count + 1) / 64 == count / 64 + if count % 64 == 63 then 1 else 0
    ensures (count + 1) % 64 == if count % 64 == 63 then 0 else count % 64 + 1
  {
  }

  lemma Edge16(count: nat)
    ensures EdgeLaw(count, 8)
  {
    hide Holds;
    Wrap16(count);
    Wrap16(count + 1);
    CounterStep(count);
    UpperHalf16(count % 0x1_0000);
    UpperHalf16((count + 1) % 0x1_0000);
    Quotient16(count);
  }

  lemma Wrap16(count: nat)
    ensures count % 0x1_0000 % 16 == count % 16
  {
    var w, s := count / 0x1_0000, count % 0x1_0000;
    assert count == 16 * (4096 * w) + s;
  }

  lemma UpperHalf16(s: Word)
    ensures Holds(s, 8) <==> s % 16 >= 8
  {
  }

  lemma Quotient16(count: nat)
    ensures (count + 1) / 16 == count / 16 + if count % 16 == 15 then 1 else 0
    ensures (count + 1) % 16 == if count % 16 == 15 then 0 else count % 16 + 1
  {
  }

  // After n cycles without writes: k falls since the start, TIMA counted up by k with reloads from
  // TMA, and as many requests as overflows.
  lemma {:induction false} ClosedForm(t: TimerState, n: nat)
    requires t.Valid() && t.started
    ensures var r, k := Cycles(t, n), Falls(t.sysTick + n, t.muxBit) - Falls(t.sysTick, t.muxBit);
      && k >= 0
      && r.t == t.(sysTick := (t.sysTick + n) % 0x1_0000, tima := Reloaded(t.tima + k, t.tma))
      && r.requests == Overflows(t.tima + k, t.tma)
      && (r.requests > 0 <==> t.tima + k >= 0x100)
    decreases n
  {
    hide Falls, Edge, Reloaded, Overflows;
    if n == 0 {
      NothingCounted(t.tima, t.tma);
    } else {
      ClosedForm(t, n - 1);
      var r := Cycles(t, n - 1).t;
      var k := Falls(t.sysTick + n - 1, t.muxBit) - Falls(t.sysTick, t.muxBit);
      EdgeIsPeriod(r, t.sysTick + n - 1);
      ReloadStep(t.tima + k, t.tma);
      OverflowsExactly(t.tima + k, t.tma);
      OverflowsExactly(t.tima + k + 1, t.tma);
      CounterStep(t.sysTick + n - 1);
    }
  }

  lemma CounterStep(count: nat)
    ensures (count % 0x1_0000 + 1) % 0x1_0000 == (count + 1) % 0x1_0000
  {
  }

  lemma NothingCounted(tima: Byte, tma: Byte)
    ensures Reloaded(tima, tma) == tima && Overflows(tima, tma) == 0
  {
  }

  lemma OverflowsExactly(total: nat, tma: Byte)
    ensures Overflows(total, tma) > 0 <==> total >= 0x100
  {
  }

  // ---- The object

  class IoTimer {
    const mIC: InterruptController
    var mStarted: bool
    var mTIMA: Byte
    var mTMA: Byte
    var mTAC: Byte
    var mSysTick: Word
    var mMuxBit: nat

    ghost function Model(): TimerState
      reads this
    {
      TimerState(mStarted, mTIMA, mTMA, mTAC, mSysTick, mMuxBit)
    }

    constructor (ic: InterruptController)
      ensures mIC == ic && Model() == TimerState(false, 0, 0, 0, 0, 0)
    {
      mIC := ic;
      mStarted, mTIMA, mTMA, mTAC, mSysTick, mMuxBit := false, 0, 0, 0, 0, 0;
    }

    method WriteAddr(addr: Word, val: Byte)
      requires Model().Valid()
      modifies this
      ensures Model().Valid()
      ensures addr == DIV_ADDR ==> Model() == old(Model()).(sysTick := 0)
      ensures addr == TIMA_ADDR ==> Model() == old(Model()).(tima := val)
      ensures addr == TMA_ADDR ==> Model() == old(Model()).(tma := val)
      ensures addr == TAC_ADDR ==>
                Model() == old(Model()).(tac := val, started := val / 4 % 2 == 1, muxBit := mMuxBit)
                && 2 * mMuxBit == (if val % 4 == 0 then 1024 else if val % 4 == 1 then 16
                                   else if val % 4 == 2 then 64 else 256)
      ensures addr < DIV_ADDR || TAC_ADDR < addr ==> Model() == old(Model())
    {
      if addr == DIV_ADDR {
        mSysTick := 0;
      } else if addr == TIMA_ADDR {
        mTIMA := val;
      } else if addr == TMA_ADDR {
        mTMA := val;
      } else if addr == TAC_ADDR {
        mTAC := val;
        mStarted := mTAC / 4 % 2 == 1;
        if mTAC % 4 == 0 {
          mMuxBit := 0x200;
        } else if mTAC % 4 == 3 {
          mMuxBit := 0x80;
        } else if mTAC % 4 == 2 {
          mMuxBit := 0x20;
        } else {
          mMuxBit := 8;
        }
      }
    }

    method Tick(elapsed: Byte)
      requires Model().Valid()
      modifies this`mSysTick, this`mTIMA, mIC`mIF
      ensures Model() == Ticked(old(Model()), elapsed).t
      ensures mIC.Model() == if Ticked(old(Model()), elapsed).requests > 0
                             then old(mIC.Model()).Request(ItTimerOverflow) else old(mIC.Model())
    {
      hide Holds;
      var oldSysTick := mSysTick;
      if !mStarted {
        mSysTick := (mSysTick + elapsed) % 0x1_0000;
        return;
      }
      var cycles: nat := elapsed;
      while cycles > 0
        invariant 0 <= cycles <= elapsed && mStarted && oldSysTick == mSysTick
        invariant Model() == Cycles(old(Model()), elapsed - cycles).t
        invariant mIC.Model() == if Cycles(old(Model()), elapsed - cycles).requests > 0
                                 then old(mIC.Model()).Request(ItTimerOverflow) else old(mIC.Model())
      {
        mSysTick := (mSysTick + 1) % 0x1_0000;
        if Holds(oldSysTick, mMuxBit) != Holds(mSysTick, mMuxBit) && !Holds(mSysTick, mMuxBit) {
          mTIMA := (mTIMA + 1) % 0x100;
          if mTIMA == 0 {
            mTIMA := mTMA;
            RequestTwice(mIC.Model());
            RequestTwice(old(mIC.Model()));
            mIC.RequestInterrupt(ItTimerOverflow);
          }
        }
        oldSysTick := mSysTick;
        cycles := cycles - 1;
      }
    }
  }

  lemma RequestTwice(l: Lines)
    ensures l.Request(ItTimerOverflow).Request(ItTimerOverflow) == l.Request(ItTimerOverflow)
  {
    assert (l.requested | 4) | 4 == l.requested | 4;
  }

  // ---- Any sequence of ticks

  function Sum(sizes: seq<nat>): nat
  {
    if sizes == [] then 0 else sizes[0] + Sum(sizes[1..])
  }

  function AfterTicks(t: TimerState, sizes: seq<nat>): Outcome
    requires t.Valid()
    decreases |sizes|
  {
    if sizes == [] then Outcome(t, 0)
    else
      var first := Ticked(t, sizes[0]);
      var rest := AfterTicks(first.t, sizes[1..]);
      Outcome(rest.t, first.requests + rest.requests)
  }

  lemma {:induction false} CyclesAppend(t: TimerState, a: nat, b: nat)
    requires t.Valid() && t.started
    ensures var r, s := Cycles(t, a), Cycles(Cycles(t, a).t, b);
      Cycles(t, a + b) == Outcome(s.t, r.requests + s.requests)
    decreases b
  {
    hide Cycle, Overflow;
    if b > 0 {
      CyclesAppend(t, a, b - 1);
    }
  }

  lemma {:induction false} TicksAreCycles(t: TimerState, sizes: seq<nat>)
    requires t.Valid() && t.started
    ensures AfterTicks(t, sizes) == Cycles(t, Sum(sizes))
    decreases |sizes|
  {
    hide Cycle, Overflow;
    if sizes != [] {
      TicksAreCycles(Ticked(t, sizes[0]).t, sizes[1..]);
      CyclesAppend(t, sizes[0], Sum(sizes[1..]));
    }
  }

  // A stopped timer only lets the system counter run on: TIMA stands still and nothing is requested.
  lemma {:induction false} TimerStopped(t: TimerState, sizes: seq<nat>)
    requires t.Valid() && !t.started
    ensures AfterTicks(t, sizes) == Outcome(t.(sysTick := (t.sysTick + Sum(sizes)) % 0x1_0000), 0)
    decreases |sizes|
  {
    if sizes != [] {
      var n := (t.sysTick + sizes[0]) % 0x1_0000;
      TimerStopped(t.(sysTick := n), sizes[1..]);
      WrapTwice(t.sysTick + sizes[0], Sum(sizes[1..]));
    }
  }

  lemma WrapTwice(a: nat, b: nat)
    ensures (a % 0x1_0000 + b) % 0x1_0000 == (a + b) % 0x1_0000
  {
  }

  // However the cycles are batched, the timer is where its closed form says.
  lemma TimerByBatches(t: TimerState, sizes: seq<nat>)
    requires t.Valid() && t.started
    ensures var r, n := AfterTicks(t, sizes), Sum(sizes);
      var k := Falls(t.sysTick + n, t.muxBit) - Falls(t.sysTick, t.muxBit);
      && k >= 0
      && r.t.tima == Reloaded(t.tima + k, t.tma) && r.t.sysTick == (t.sysTick + n) % 0x1_0000
      && r.requests == Overflows(t.tima + k, t.tma) && (r.requests > 0 <==> t.tima + k >= 0x100)
  {
    hide Cycles, AfterTicks, Falls, Reloaded, Overflows;
    TicksAreCycles(t, sizes);
    ClosedForm(t, Sum(sizes));
  }
}
