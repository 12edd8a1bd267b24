/** Addition and subtraction with their flags, and decimal adjustment. */
module Decimal {
  import opened Bytes
  import opened FlagByte

  function Carry(f: Flags, checkC: bool): int
  {
    if checkC && f.c then 1 else 0
  }

  // The carry a full adder takes in at a bit, recovered from operands and result: the bit of
  // a ^ b ^ c ^ r is the parity of the four bits.
  predicate XorBit(a: int, b: int, c: int, r: int, weight: nat)
    requires weight > 0
  {
    (a / weight % 2 + b / weight % 2 + c / weight % 2 + r / weight % 2) % 2 == 1
  }

  // What addition means: the sum, whether it left the byte, whether it left the low nibble.
  function Sum(a: Byte, b: Byte, c: int): Byte
    requires 0 <= c <= 1
  {
    (a + b + c) % 0x100
  }

  function AddFlags(a: Byte, b: Byte, c: int, n: bool): Flags
    requires 0 <= c <= 1
  {
    Flags(Sum(a, b, c) == 0, n, a % 16 + b % 16 + c > 15, a + b + c > 0xff)
  }

  function Difference(a: Byte, b: Byte, c: int): Byte
    requires 0 <= c <= 1
  {
    (a - b - c) % 0x100
  }

  function SubFlags(a: Byte, b: Byte, c: int, n: bool): Flags
    requires 0 <= c <= 1
  {
    Flags(Difference(a, b, c) == 0, n, a % 16 < b % 16 + c, a < b + c)
  }

  // A sum's parity is off by exactly the carry that came in.
  lemma Parity(x: int, y: int, r: int, carry: int, even: int)
    requires 0 <= carry <= 1 && (r == x + y + carry || r == x - y - carry + 2 * even)
    ensures (x % 2 + y % 2 + r % 2) % 2 == carry
  {
  }

  // The quotients of a three-part sum, with the carry out of the low part.
  lemma SumQuotients(a: Byte, b: Byte, c: int)
    requires 0 <= c <= 1
    ensures (a + b + c) / 0x10 == a / 0x10 + b / 0x10 + if a % 16 + b % 16 + c > 15 then 1 else 0
    ensures (a + b + c) / 0x100 == if a + b + c > 0xff then 1 else 0
  {
  }

  // The xor of operands and result shows the true carries.
  lemma XorShowsCarry(a: Byte, b: Byte, c: int)
    requires 0 <= c <= 1
    ensures XorBit(a, b, c, a + b + c, 0x10) <==> a % 16 + b % 16 + c > 15
    ensures XorBit(a, b, c, a + b + c, 0x100) <==> a + b + c > 0xff
  {
    SumQuotients(a, b, c);
    Parity(a / 0x10, b / 0x10, (a + b + c) / 0x10, if a % 16 + b % 16 + c > 15 then 1 else 0, 0);
  }

  // The same for a subtraction in sixteen bits.
  lemma DifferenceQuotients(a: Byte, b: Byte, c: int)
    requires 0 <= c <= 1
    ensures var r, w := (a - b - c) % 0x1_0000, if a < b + c then 1 else 0;
      && r / 0x10 == a / 0x10 - b / 0x10 - (if a % 16 < b % 16 + c then 1 else 0) + 0x1000 * w
      && r / 0x100 == 0xff * w
  {
    var r, w := (a - b - c) % 0x1_0000, if a < b + c then 1 else 0;
    assert r == a - b - c + 0x1_0000 * w;
  }

  lemma LowByte(x: int)
    ensures x % 0x1_0000 % 0x100 == x % 0x100
  {
  }

  // Given the quotients of a difference, the bits that stand out.
  lemma BorrowBits(a: Byte, b: Byte, c: int, r: int, borrow: int, w: int)
    requires 0 <= c <= 1 && 0 <= borrow <= 1 && 0 <= w <= 1
    requires r / 0x10 == a / 0x10 - b / 0x10 - borrow + 0x1000 * w && r / 0x100 == 0xff * w
    ensures XorBit(a, b, c, r, 0x10) <==> borrow == 1
    ensures XorBit(a, b, c, r, 0x100) <==> w == 1
  {
    Parity(a / 0x10, b / 0x10, r / 0x10, borrow, 0x800 * w);
    assert c / 0x10 == 0 && a / 0x100 == 0 && b / 0x100 == 0 && c / 0x100 == 0;
  }

  lemma XorShowsBorrow(a: Byte, b: Byte, c: int)
    requires 0 <= c <= 1
    ensures XorBit(a, b, c, (a - b - c) % 0x1_0000, 0x10) <==> a % 16 < b % 16 + c
    ensures XorBit(a, b, c, (a - b - c) % 0x1_0000, 0x100) <==> a < b + c
    ensures (a - b - c) % 0x1_0000 % 0x100 == Difference(a, b, c)
  {
    hide XorBit;
    DifferenceQuotients(a, b, c);
    BorrowBits(a, b, c, (a - b - c) % 0x1_0000, if a % 16 < b % 16 + c then 1 else 0, if a < b + c then 1 else 0);
    LowByte(a - b - c);
  }

  // ---- Decimal adjustment

  datatype Adjusted = Adjusted(a: Byte, f: Flags)

  // The intermediate value of DAA, an int that may leave the byte in either direction.
  function DaaValue(a: Byte, f: Flags): int
  {
    if f.n then
      var v0 := if f.h then (a - 6) % 0x100 else a;
      if f.c then v0 - 0x60 else v0
    else
      var v0 := if f.c || a > 0x99 then a + 0x60 else a;
      if f.h || v0 % 16 > 9 then v0 + 6 else v0
  }

  function Daa(a: Byte, f: Flags): Adjusted
  {
    var v := DaaValue(a, f);
    Adjusted(v % 0x100, Flags(v % 0x100 == 0, f.n, false, f.c || v / 0x100 % 2 != 0))
  }

  // ---- One byte of packed decimal

  predicate IsBcd(b: Byte)
  {
    b / 16 <= 9 && b % 16 <= 9
  }

  // The number the two digits stand for.
  function Dec(b: Byte): nat
  {
    b / 16 * 10 + b % 16
  }

  // ADC, then DAA.
  function AddDigits(a: Byte, b: Byte, c: int): Adjusted
    requires 0 <= c <= 1
  {
    Daa(Sum(a, b, c), AddFlags(a, b, c, false))
  }

  // SBC, then DAA.
  function SubDigits(a: Byte, b: Byte, c: int): Adjusted
    requires 0 <= c <= 1
  {
    Daa(Difference(a, b, c), SubFlags(a, b, c, true))
  }

  function FlagOf(c: bool): int
  {
    if c then 1 else 0
  }

  // The byte with nibbles h and l.
  lemma Nibbles(h: int, l: int)
    requires 0 <= l < 16
    ensures (16 * h + l) / 16 == h && (16 * h + l) % 16 == l
  {
  }

  // DAA after an addition whose nibble sums are q and low.
  lemma DaaAfterAdd(q: int, low: int)
    requires 0 <= q <= 18 && 0 <= low <= 19
    ensures var s := 16 * q + low;
      var k := if low > 9 then 1 else 0;
      var r := Daa(s % 0x100, Flags(s % 0x100 == 0, false, low > 15, s > 0xff));
      && r.f.c == (q + k > 9)
      && r.a == 16 * (if q + k > 9 then q + k - 10 else q + k) + (low - 10 * k)
  {
    var s := 16 * q + low;
    if low <= 9 {
      AdjustAdd(q, low, false);
    } else if low <= 15 {
      AdjustAdd(q, low, false);
    } else {
      AdjustAdd(q + 1, low - 16, true);
    }
  }

  // What DAA should make of nibble sums q and l, with or without a half carry.
  ghost predicate AddAdjusted(q: int, l: int, h: bool)
    requires 0 <= q && 0 <= l < 16
  {
    var s := 16 * q + l;
    var k := if h || l > 9 then 1 else 0;
    var t := q + (if h then 0 else k);
    var r := Daa(s % 0x100, Flags(s % 0x100 == 0, false, h, s > 0xff));
    && r.f.c == (t > 9)
    && r.a == 16 * (if t > 9 then t - 10 else t) + (if h then l + 6 else l - 10 * k)
  }

  lemma AdjustAdd(q: int, l: int, h: bool)
    requires 0 <= q <= 19 && 0 <= l < 16 && (h ==> l <= 3 && q >= 1) && (!h ==> q <= 18)
    ensures AddAdjusted(q, l, h)
  {
    hide AddAdjusted;
    if q >= 16 {
      AdjustAddOver(q, l, h);
    } else {
      AdjustAddWithin(q, l, h);
    }
  }

  lemma AdjustAddOver(q: int, l: int, h: bool)
    requires 16 <= q <= 19 && 0 <= l < 16 && (h ==> l <= 3) && (!h ==> q <= 18)
    ensures AddAdjusted(q, l, h)
  {
    assert (16 * q + l) % 0x100 == 16 * (q - 16) + l;
    Nibbles(q - 10, l);
  }

  lemma AdjustAddWithin(q: int, l: int, h: bool)
    requires 0 <= q < 16 && 0 <= l < 16 && (h ==> l <= 3)
    ensures AddAdjusted(q, l, h)
  {
    hide AddAdjusted;
    if q > 9 || (q == 9 && l > 9) {
      AdjustAddLarge(q, l, h);
    } else {
      AdjustAddSmall(q, l, h);
    }
  }

  lemma AdjustAddLarge(q: int, l: int, h: bool)
    requires 9 <= q < 16 && 0 <= l < 16 && (h ==> l <= 3) && (q > 9 || l > 9)
    ensures AddAdjusted(q, l, h)
  {
    assert (16 * q + l) % 0x100 == 16 * q + l && 16 * q + l > 0x99;
    Nibbles(q + 6, l);
  }

  lemma AdjustAddSmall(q: int, l: int, h: bool)
    requires 0 <= q <= 9 && 0 <= l < 16 && (h ==> l <= 3) && (q < 9 || l <= 9)
    ensures AddAdjusted(q, l, h)
  {
    assert (16 * q + l) % 0x100 == 16 * q + l && 16 * q + l <= 0x99;
    Nibbles(q, l);
  }

  lemma AddDigitsDecimal(a: Byte, b: Byte, c: int)
    requires IsBcd(a) && IsBcd(b) && 0 <= c <= 1
    ensures var r := AddDigits(a, b, c);
      IsBcd(r.a) && Dec(r.a) + 100 * FlagOf(r.f.c) == Dec(a) + Dec(b) + c
  {
    hide Daa;
    var q, low := a / 16 + b / 16, a % 16 + b % 16 + c;
    assert a + b + c == 16 * q + low;
    DaaAfterAdd(q, low);
    var k := if low > 9 then 1 else 0;
    Nibbles(if q + k > 9 then q + k - 10 else q + k, low - 10 * k);
  }

  // DAA after a subtraction whose nibble differences are q and low.
  lemma DaaAfterSub(q: int, low: int)
    requires -9 <= q <= 9 && -10 <= low <= 9
    ensures var s := 16 * q + low;
      var k := if low < 0 then 1 else 0;
      var r := Daa(s % 0x100, Flags(s % 0x100 == 0, true, low < 0, s < 0));
      && r.f.c == (q - k < 0)
      && r.a == 16 * (if q - k < 0 then q - k + 10 else q - k) + (low + 10 * k)
  {
    var s := 16 * q + low;
    var k := if low < 0 then 1 else 0;
    var t := q - k;
    var up := if t < 0 then t + 16 else t;
    assert s % 0x100 == 16 * up + (low + 16 * k);
    var v1 := (s % 0x100 - 6 * k) % 0x100;
    assert v1 == 16 * up + (low + 10 * k);
  }

  lemma SubDigitsDecimal(a: Byte, b: Byte, c: int)
    requires IsBcd(a) && IsBcd(b) && 0 <= c <= 1
    ensures var r := SubDigits(a, b, c);
      IsBcd(r.a) && Dec(r.a) == Dec(a) - Dec(b) - c + 100 * FlagOf(r.f.c)
  {
    hide Daa;
    var q, low := a / 16 - b / 16, a % 16 - b % 16 - c;
    assert a - b - c == 16 * q + low;
    DaaAfterSub(q, low);
    var k := if low < 0 then 1 else 0;
    Nibbles(if q - k < 0 then q - k + 10 else q - k, low + 10 * k);
  }

  // ---- Numbers of any length, least significant byte first

  ghost predicate AllBcd(s: seq<Byte>)
  {
    forall i :: 0 <= i < |s| ==> IsBcd(s[i])
  }

  function Value(s: seq<Byte>): nat
  {
    if s == [] then 0 else Dec(s[0]) + 100 * Value(s[1..])
  }

  function Hundreds(n: nat): nat
  {
    if n == 0 then 1 else 100 * Hundreds(n - 1)
  }

  datatype Chain = Chain(digits: seq<Byte>, c: int)

  function AddChain(xs: seq<Byte>, ys: seq<Byte>, c: int): (r: Chain)
    requires |xs| == |ys| && 0 <= c <= 1
    ensures |r.digits| == |xs| && 0 <= r.c <= 1
  {
    if xs == [] then Chain([], c)
    else
      var d := AddDigits(xs[0], ys[0], c);
      var rest := AddChain(xs[1..], ys[1..], FlagOf(d.f.c));
      Chain([d.a] + rest.digits, rest.c)
  }

  function SubChain(xs: seq<Byte>, ys: seq<Byte>, c: int): (r: Chain)
    requires |xs| == |ys| && 0 <= c <= 1
    ensures |r.digits| == |xs| && 0 <= r.c <= 1
  {
    if xs == [] then Chain([], c)
    else
      var d := SubDigits(xs[0], ys[0], c);
      var rest := SubChain(xs[1..], ys[1..], FlagOf(d.f.c));
      Chain([d.a] + rest.digits, rest.c)
  }

  // Adding packed decimal numbers of n bytes, low byte first, gives the decimal sum; the carry
  // that is left is the decimal carry.
  lemma {:induction false} DecimalSum(xs: seq<Byte>, ys: seq<Byte>, c: int)
    requires |xs| == |ys| && AllBcd(xs) && AllBcd(ys) && 0 <= c <= 1
    ensures var r := AddChain(xs, ys, c);
      AllBcd(r.digits) && Value(r.digits) + Hundreds(|xs|) * r.c == Value(xs) + Value(ys) + c
  {
    hide AddDigits, Dec, IsBcd;
    if xs != [] {
      var d := AddDigits(xs[0], ys[0], c);
      AddDigitsDecimal(xs[0], ys[0], c);
      var rest := AddChain(xs[1..], ys[1..], FlagOf(d.f.c));
      DecimalSum(xs[1..], ys[1..], FlagOf(d.f.c));
      var r := AddChain(xs, ys, c);
      assert r.digits[1..] == rest.digits;
      ScaleHundred(Hundreds(|xs| - 1), rest.c);
    }
  }

  // Subtracting likewise gives the decimal difference modulo 100^n, and the borrow.
  lemma {:induction false} DecimalDifference(xs: seq<Byte>, ys: seq<Byte>, c: int)
    requires |xs| == |ys| && AllBcd(xs) && AllBcd(ys) && 0 <= c <= 1
    ensures var r := SubChain(xs, ys, c);
      AllBcd(r.digits) && Value(r.digits) == Value(xs) - Value(ys) - c + Hundreds(|xs|) * r.c
  {
    hide SubDigits, Dec, IsBcd;
    if xs != [] {
      var d := SubDigits(xs[0], ys[0], c);
      SubDigitsDecimal(xs[0], ys[0], c);
      var rest := SubChain(xs[1..], ys[1..], FlagOf(d.f.c));
      DecimalDifference(xs[1..], ys[1..], FlagOf(d.f.c));
      var r := SubChain(xs, ys, c);
      assert r.digits[1..] == rest.digits;
      ScaleHundred(Hundreds(|xs| - 1), rest.c);
    }
  }

  lemma ScaleHundred(p: nat, c: int)
    ensures 100 * p * c == 100 * (p * c)
  {
  }

  // The value of n decimal bytes fits, so the digits above are the only ones with that value:
  // subtracting what was added gives the number back.
  lemma {:induction false} ValueBound(s: seq<Byte>)
    requires AllBcd(s)
    ensures Value(s) < Hundreds(|s|)
  {
    if s != [] {
      ValueBound(s[1..]);
    }
  }

  lemma {:induction false} ValueInjective(s: seq<Byte>, t: seq<Byte>)
    requires |s| == |t| && AllBcd(s) && AllBcd(t) && Value(s) == Value(t)
    ensures s == t
  {
    if s != [] {
      DecBound(s[0]);
      DecBound(t[0]);
      ValueInjective(s[1..], t[1..]);
      assert s == [s[0]] + s[1..] && t == [t[0]] + t[1..];
    }
  }

  lemma DecBound(b: Byte)
    requires IsBcd(b)
    ensures Dec(b) < 100 && b == Dec(b) / 10 * 16 + Dec(b) % 10
  {
  }

  lemma AddThenSubtract(xs: seq<Byte>, ys: seq<Byte>, c: int)
    requires |xs| == |ys| && AllBcd(xs) && AllBcd(ys) && 0 <= c <= 1
    ensures SubChain(AddChain(xs, ys, c).digits, ys, c).digits == xs
    ensures SubChain(AddChain(xs, ys, c).digits, ys, c).c == AddChain(xs, ys, c).c
  {
    hide Value, Hundreds, AddChain, SubChain;
    var r := AddChain(xs, ys, c);
    DecimalSum(xs, ys, c);
    DecimalDifference(r.digits, ys, c);
    var b := SubChain(r.digits, ys, c);
    ValueBound(xs);
    ValueBound(b.digits);
    if r.c == b.c {
      ValueInjective(b.digits, xs);
    }
  }
}
