/** The interrupt controller: request lines, enable mask, and the master enable. */
module Interrupts {

  datatype IrqType = ItVBlank | ItLcdcStatus | ItTimerOverflow | ItSerialComplete | ItPio | ItNone

  function TypeOf(i: nat): IrqType
  {
    match i
    case 0 => ItVBlank
    case 1 => ItLcdcStatus
    case 2 => ItTimerOverflow
    case 3 => ItSerialComplete
    case 4 => ItPio
    case _ => ItNone
  }

  function NumberOf(t: IrqType): (i: nat)
    ensures i <= 5 && TypeOf(i) == t
  {
    match t
    case ItVBlank => 0
    case ItLcdcStatus => 1
    case ItTimerOverflow => 2
    case ItSerialComplete => 3
    case ItPio => 4
    case ItNone => 5
  }

  // 1 << number; no bit for ItNone.
  function BitOf(t: IrqType): bv8
  {
    match t
    case ItVBlank => 0x01
    case ItLcdcStatus => 0x02
    case ItTimerOverflow => 0x04
    case ItSerialComplete => 0x08
    case ItPio => 0x10
    case ItNone => 0
  }

  function Vector(t: IrqType): (v: int)
    requires t != ItNone
    ensures 0x40 <= v <= 0x60
  {
    0x40 + 8 * NumberOf(t)
  }

  datatype Lines = Lines(enabled: bool, ie: bv8, requested: bv8) {

    function Request(t: IrqType): Lines
    {
      this.(requested := requested | BitOf(t))
    }

    function Clear(t: IrqType): Lines
    {
      this.(requested := requested & !BitOf(t))
    }

    // Looks at all eight bits, of which only five name a source.
    predicate IsPending()
    {
      requested & ie != 0
    }

    predicate Raised(t: IrqType)
    {
      requested & ie & BitOf(t) != 0
    }

    function PendingFrom(i: nat): IrqType
      decreases 5 - i
    {
      if i >= 5 then ItNone
      else if Raised(TypeOf(i)) then TypeOf(i)
      else PendingFrom(i + 1)
    }

    function Pending(): IrqType
    {
      if enabled then PendingFrom(0) else ItNone
    }
  }

  // The pending source is the lowest-numbered raised one, and there is one iff IME is on and a
  // source is raised.
  lemma {:induction false} PendingIsLowest(l: Lines, i: nat)
    requires i <= 5
    ensures l.PendingFrom(i) != ItNone ==> l.Raised(l.PendingFrom(i)) && NumberOf(l.PendingFrom(i)) >= i
    ensures forall t :: i <= NumberOf(t) < NumberOf(l.PendingFrom(i)) ==> !l.Raised(t)
    decreases 5 - i
  {
    if i < 5 {
      PendingIsLowest(l, i + 1);
      assert forall t :: NumberOf(t) == i ==> t == TypeOf(i);
    }
  }

  // Acknowledging a source drops its own request and no other.
  lemma ClearOnlyOne(l: Lines, t: IrqType, u: IrqType)
    requires t != ItNone
    ensures l.Clear(t).requested & BitOf(t) == 0
    ensures u != t ==> l.Clear(t).requested & BitOf(u) == l.requested & BitOf(u)
    ensures l.Clear(t).Request(t).requested == l.Request(t).requested
  {
    hide BitOf;
    MaskOut(l.requested, BitOf(t));
    if u != t {
      DistinctBits(t, u);
      MaskKeeps(l.requested, BitOf(t), BitOf(u));
    }
  }

  lemma DistinctBits(t: IrqType, u: IrqType)
    requires t != u
    ensures BitOf(t) & BitOf(u) == 0
  {
  }

  lemma MaskOut(r: bv8, b: bv8)
    ensures (r & !b) & b == 0 && (r & !b) | b == r | b
  {
  }

  lemma MaskKeeps(r: bv8, b: bv8, c: bv8)
    requires b & c == 0
    ensures (r & !b) & c == r & c
  {
    assert (r & !b) & c == r & (!b & c);
    assert !b & c == c;
  }

  class InterruptController {
    var mEnabled: bool
    var mIF: bv8
    var mIE: bv8

    ghost function Model(): Lines
      reads this
    {
      Lines(mEnabled, mIE, mIF)
    }

    constructor ()
      ensures Model() == Lines(false, 0, 0)
    {
      mEnabled, mIE, mIF := false, 0, 0;
    }

    method SetEnabled(enabled: bool)
      modifies this`mEnabled
      ensures Model() == old(Model()).(enabled := enabled)
    {
      mEnabled := enabled;
    }

    method RequestInterrupt(t: IrqType)
      modifies this`mIF
      ensures Model() == old(Model()).Request(t)
    {
      if t == ItNone {
        return;
      }
      mIF := mIF | BitOf(t);
    }

    method ClearInterrupt(t: IrqType)
      modifies this`mIF
      ensures Model() == old(Model()).Clear(t)
    {
      if t == ItNone {
        return;
      }
      mIF := mIF & !BitOf(t);
    }

    method IsPending() returns (pending: bool)
      ensures pending == Model().IsPending()
    {
      pending := mIF & mIE != 0;
    }

    method GetPending() returns (t: IrqType)
      ensures t == Model().Pending()
    {
      if !mEnabled {
        return ItNone;
      }
      var i := 0;
      while i < 5
        invariant 0 <= i <= 5
        invariant Model().PendingFrom(0) == Model().PendingFrom(i)
      {
        if BitOf(TypeOf(i)) & mIF & mIE != 0 {
          assert BitOf(TypeOf(i)) & mIF & mIE == mIF & mIE & BitOf(TypeOf(i));
          return TypeOf(i);
        }
        assert BitOf(TypeOf(i)) & mIF & mIE == mIF & mIE & BitOf(TypeOf(i));
        i := i + 1;
      }
      return ItNone;
    }
  }
}
