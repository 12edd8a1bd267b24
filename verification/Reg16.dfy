/** A sixteen-bit register over two eight-bit halves that others may hold too. */
module Register16 {
  import opened Bytes

  class Reg8 {
    var mVal: Byte

    constructor ()
      ensures mVal == 0
    {
      mVal := 0;
    }
  }

  class Reg16 {
    const mHigh: Reg8
    const mLow: Reg8

    ghost predicate Valid()
    {
      mHigh != mLow
    }

    ghost function Value(): Word
      reads mHigh, mLow
    {
      mLow.mVal + 0x100 * mHigh.mVal
    }

    constructor (high: Reg8, low: Reg8)
      requires high != low
      ensures Valid() && mHigh == high && mLow == low
    {
      mHigh, mLow := high, low;
    }

    method Write(val: Word)
      requires Valid()
      modifies mHigh, mLow
      ensures Value() == val
    {
      mLow.mVal := val % 0x100;
      mHigh.mVal := val / 0x100;
    }

    method Read() returns (val: Word)
      ensures val == Value()
    {
      val := mHigh.mVal * 0x100 + mLow.mVal;
    }

    // Counts up or down around the ends, across both halves, and returns the new value.
    method Increment() returns (val: Word)
      requires Valid()
      modifies mHigh, mLow
      ensures val == Value() == (old(Value()) + 1) % 0x1_0000
    {
      val := (mHigh.mVal * 0x100 + mLow.mVal + 1) % 0x1_0000;
      mLow.mVal := val % 0x100;
      mHigh.mVal := val / 0x100;
    }

    method Decrement() returns (val: Word)
      requires Valid()
      modifies mHigh, mLow
      ensures val == Value() == (old(Value()) - 1) % 0x1_0000
    {
      val := (mHigh.mVal * 0x100 + mLow.mVal - 1) % 0x1_0000;
      mLow.mVal := val % 0x100;
      mHigh.mVal := val / 0x100;
    }

    // Returns the value from before; the high half is stored as a byte, so 0xFFFF wraps to 0.
    method PostIncrement() returns (val: Word)
      requires Valid()
      modifies mHigh, mLow
      ensures val == old(Value()) && Value() == (old(Value()) + 1) % 0x1_0000
    {
      val := mHigh.mVal * 0x100 + mLow.mVal;
      mLow.mVal := (val + 1) % 0x100;
      mHigh.mVal := (val + 1) / 0x100 % 0x100;
    }

    // Counts down by two and returns the value in between.
    method PostDecrement() returns (val: Word)
      requires Valid()
      modifies mHigh, mLow
      ensures val == (old(Value()) - 1) % 0x1_0000 && Value() == (old(Value()) - 2) % 0x1_0000
    {
      val := (mHigh.mVal * 0x100 + mLow.mVal - 1) % 0x1_0000;
      mLow.mVal := (val - 1) % 0x100;
      mHigh.mVal := (val - 1) / 0x100 % 0x100;
    }
  }
}
