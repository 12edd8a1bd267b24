/** The accumulator and F as the registers they are, and decimal numbers of any length in memory. */
module Accumulator {
  import opened Bytes
  import opened FlagByte
  import opened FlagScripts
  import opened Decimal

  class Alu {
    var mA: Byte
    var mF: bv8

    ghost predicate Valid()
      reads this
    {
      mF & 0x0f == 0
    }

    constructor ()
      ensures Valid() && mA == 0 && mF == 0
    {
      mA, mF := 0, 0;
    }

    // SET_FLAG or CLEAR_FLAG, as `on` says.
    method Decide(mask: Flags, on: bool) returns (ghost w: FlagWrite)
      requires Valid()
      modifies this`mF
      ensures Valid() && w == (if on then SetFlag(mask) else ClearFlag(mask))
      ensures mF == Stored(old(mF), w) && Tested(mF) == Noted(Tested(old(mF)), w)
    {
      hide MaskOf, Tested, Noted;
      w := if on then SetFlag(mask) else ClearFlag(mask);
      WriteShows(mF, w);
      mF := if on then mF | MaskOf(mask) else mF & !MaskOf(mask);
    }

    method Add(p1: Byte, p2: Byte, checkC: bool) returns (r: Byte, ghost ws: seq<FlagWrite>)
      requires Valid()
      modifies this`mF
      ensures Valid() && mF == AllStored(old(mF), ws) && Conforms(ws, ADDING)
      ensures r == Sum(p1, p2, Carry(Tested(old(mF)), checkC))
      ensures Tested(mF) == AddFlags(p1, p2, Carry(Tested(old(mF)), checkC), Tested(old(mF)).n)
    {
      hide XorBit, Tested, Stored, On, Conforms, AllStored;
      var carryIn := IsOn(FLAG_C);
      var c := if checkC && carryIn then 1 else 0;
      var result := p1 + p2 + c;
      ghost var w1 := Decide(Z, result % 0x100 == 0);
      ghost var w2 := Decide(Z, result % 0x100 == 0);
      ghost var w3 := Decide(C, XorBit(p1, p2, c, result, 0x100));
      ghost var w4 := Decide(H, XorBit(p1, p2, c, result, 0x10));
      ws := [w1, w2, w3, w4];
      FourStored(old(mF), w1, w2, w3, w4);
      AddingConforms(w1, w2, w3, w4);
      XorShowsCarry(p1, p2, c);
      r := result % 0x100;
    }

    // TEST_FLAG
    method IsOn(bit: bv8) returns (on: bool)
      requires bit == FLAG_Z || bit == FLAG_N || bit == FLAG_H || bit == FLAG_C
      ensures on == On(mF, bit)
      ensures bit == FLAG_C ==> on == Tested(mF).c
      ensures bit == FLAG_H ==> on == Tested(mF).h
      ensures bit == FLAG_N ==> on == Tested(mF).n
    {
      on := mF & bit != 0;
    }

    method Sub(p1: Byte, p2: Byte, checkC: bool) returns (r: Byte, ghost ws: seq<FlagWrite>)
      requires Valid()
      modifies this`mF
      ensures Valid() && mF == AllStored(old(mF), ws) && Conforms(ws, SUBTRACTING)
      ensures r == Difference(p1, p2, Carry(Tested(old(mF)), checkC))
      ensures Tested(mF) == SubFlags(p1, p2, Carry(Tested(old(mF)), checkC), Tested(old(mF)).n)
    {
      hide XorBit, Tested, Stored, On, Conforms, AllStored;
      var carryIn := IsOn(FLAG_C);
      var c := if checkC && carryIn then 1 else 0;
      var result := (p1 - p2 - c) % 0x1_0000;
      XorShowsBorrow(p1, p2, c);
      ghost var w1 := Decide(Z, result % 0x100 == 0);
      ghost var w2 := Decide(C, XorBit(p1, p2, c, result, 0x100));
      ghost var w3 := Decide(H, XorBit(p1, p2, c, result, 0x10));
      ws := [w1, w2, w3];
      FourStored(old(mF), w1, w2, w3, w3);
      SubtractingConforms(w1, w2, w3);
      r := result % 0x100;
    }

    method AdcA(p: Byte) returns (ghost ws: seq<FlagWrite>)
      requires Valid()
      modifies this
      ensures Valid() && mF == AllStored(old(mF), ws) && Conforms(ws, ADD_SCRIPT)
      ensures mA == Sum(old(mA), p, Carry(Tested(old(mF)), true))
      ensures Tested(mF) == AddFlags(old(mA), p, Carry(Tested(old(mF)), true), false)
    {
      hide Tested, Stored, AllStored, Conforms, Sum, AddFlags;
      ghost var w := Decide(N, false);
      ghost var rest;
      mA, rest := Add(mA, p, true);
      ws := [w] + rest;
      StoredFirst(old(mF), w, rest);
      FirstConforms(w, rest, ADDING);
    }

    method SbcA(p: Byte) returns (ghost ws: seq<FlagWrite>)
      requires Valid()
      modifies this
      ensures Valid() && mF == AllStored(old(mF), ws) && Conforms(ws, SUB_SCRIPT)
      ensures mA == Difference(old(mA), p, Carry(Tested(old(mF)), true))
      ensures Tested(mF) == SubFlags(old(mA), p, Carry(Tested(old(mF)), true), true)
    {
      hide Tested, Stored, AllStored, Conforms, Difference, SubFlags;
      ghost var w := Decide(N, true);
      ghost var rest;
      mA, rest := Sub(mA, p, true);
      ws := [w] + rest;
      StoredFirst(old(mF), w, rest);
      FirstConforms(w, rest, SUBTRACTING);
    }

    // The intermediate value of DAA.
    method Corrected() returns (aVal: int)
      ensures aVal == DaaValue(mA, Tested(mF))
    {
      hide Tested;
      var n := IsOn(FLAG_N);
      var h := IsOn(FLAG_H);
      var c := IsOn(FLAG_C);
      aVal := mA;
      if n {
        if h {
          aVal := (aVal - 6) % 0x100;
        }
        if c {
          aVal := aVal - 0x60;
        }
      } else {
        if c || aVal > 0x99 {
          aVal := aVal + 0x60;
        }
        if h || aVal % 16 > 9 {
          aVal := aVal + 6;
        }
      }
    }

    method DaaA() returns (ghost ws: seq<FlagWrite>)
      requires Valid()
      modifies this
      ensures Valid() && mF == AllStored(old(mF), ws) && Conforms(ws, DAA_SCRIPT)
      ensures Adjusted(mA, Tested(mF)) == Daa(old(mA), Tested(old(mF)))
    {
      hide Tested, Stored, DaaValue;
      var aVal := Corrected();
      ghost var w := SetFlag(C);
      if aVal / 0x100 % 2 != 0 {
        w := Decide(C, true);
      }
      ghost var w1 := Decide(H, false);
      ghost var w2 := Decide(Z, aVal % 0x100 == 0);
      FourStored(old(mF), w, w1, w2, w2);
      FourStored(old(mF), w1, w2, w2, w2);
      AdjustingConforms(w1, w2);
      ws := if aVal / 0x100 % 2 != 0 then [w, w1, w2] else [w1, w2];
      mA := aVal % 0x100;
    }

    // A number of packed decimal bytes, low byte first, is added to another byte by byte.
    method AddNumbers(xs: array<Byte>, ys: array<Byte>)
      requires Valid() && xs.Length == ys.Length
      modifies this, xs
      ensures Valid()
      ensures var r := AddChain(old(xs[..]), old(ys[..]), FlagOf(Tested(old(mF)).c));
        xs[..] == r.digits && FlagOf(Tested(mF).c) == r.c
      ensures old(AllBcd(xs[..]) && AllBcd(ys[..])) ==>
        && AllBcd(xs[..])
        && Value(xs[..]) + Hundreds(xs.Length) * FlagOf(Tested(mF).c)
           == old(Value(xs[..])) + old(Value(ys[..])) + FlagOf(Tested(old(mF)).c)
    {
      hide Tested, AddDigits, AllStored, Conforms, AddChain, AllBcd, Value, Hundreds;
      ghost var a, b, c := xs[..], ys[..], FlagOf(Tested(mF).c);
      var i := 0;
      assert a[0..] == a && b[0..] == b;
      while i < xs.Length
        invariant 0 <= i <= xs.Length && Valid()
        invariant xs[i..] == a[i..] && ys[i..] == b[i..]
        invariant var rest := AddChain(a[i..], b[i..], FlagOf(Tested(mF).c));
          AddChain(a, b, c) == Chain(xs[..i] + rest.digits, rest.c)
      {
        ghost var f, done := Tested(mF), xs[..i];
        AddChainStep(a, b, i, FlagOf(f.c));
        mA := xs[i];
        var p := ys[i];
        assert mA == a[i] && p == b[i] by { assert xs[i] == xs[i..][0] && ys[i] == ys[i..][0]; }
        ghost var w1 := AdcA(p);
        ghost var w2 := DaaA();
        assert Adjusted(mA, Tested(mF)) == AddDigits(a[i], b[i], FlagOf(f.c)) by { DigitsOf(a[i], b[i], f); }
        xs[i] := mA;
        NextChain(AddChain(a, b, c), done, mA, AddChain(a[i + 1..], b[i + 1..], FlagOf(Tested(mF).c)));
        assert xs[..i + 1] == done + [mA];
        i := i + 1;
      }
      AddChainEnd(FlagOf(Tested(mF).c));
      assert a[i..] == [] && b[i..] == [] && xs[..i] == xs[..] && xs[..i] + [] == xs[..];
      if AllBcd(a) && AllBcd(b) {
        DecimalSum(a, b, c);
      }
    }

    // One number is subtracted from another likewise.
    method SubNumbers(xs: array<Byte>, ys: array<Byte>)
      requires Valid() && xs.Length == ys.Length
      modifies this, xs
      ensures Valid()
      ensures var r := SubChain(old(xs[..]), old(ys[..]), FlagOf(Tested(old(mF)).c));
        xs[..] == r.digits && FlagOf(Tested(mF).c) == r.c
      ensures old(AllBcd(xs[..]) && AllBcd(ys[..])) ==>
        && AllBcd(xs[..])
        && Value(xs[..])
           == old(Value(xs[..])) - old(Value(ys[..])) - FlagOf(Tested(old(mF)).c)
              + Hundreds(xs.Length) * FlagOf(Tested(mF).c)
    {
      hide Tested, SubDigits, AllStored, Conforms, SubChain, AllBcd, Value, Hundreds;
      ghost var a, b, c := xs[..], ys[..], FlagOf(Tested(mF).c);
      var i := 0;
      assert a[0..] == a && b[0..] == b;
      while i < xs.Length
        invariant 0 <= i <= xs.Length && Valid()
        invariant xs[i..] == a[i..] && ys[i..] == b[i..]
        invariant var rest := SubChain(a[i..], b[i..], FlagOf(Tested(mF).c));
          SubChain(a, b, c) == Chain(xs[..i] + rest.digits, rest.c)
      {
        ghost var f, done := Tested(mF), xs[..i];
        SubChainStep(a, b, i, FlagOf(f.c));
        mA := xs[i];
        var p := ys[i];
        assert mA == a[i] && p == b[i] by { assert xs[i] == xs[i..][0] && ys[i] == ys[i..][0]; }
        ghost var w1 := SbcA(p);
        ghost var w2 := DaaA();
        assert Adjusted(mA, Tested(mF)) == SubDigits(a[i], b[i], FlagOf(f.c)) by { DifferenceOf(a[i], b[i], f); }
        xs[i] := mA;
        NextChain(SubChain(a, b, c), done, mA, SubChain(a[i + 1..], b[i + 1..], FlagOf(Tested(mF).c)));
        assert xs[..i + 1] == done + [mA];
        i := i + 1;
      }
      SubChainEnd(FlagOf(Tested(mF).c));
      assert a[i..] == [] && b[i..] == [] && xs[..i] == xs[..] && xs[..i] + [] == xs[..];
      if AllBcd(a) && AllBcd(b) {
        DecimalDifference(a, b, c);
      }
    }
  }

  lemma DigitsOf(a: Byte, b: Byte, f: Flags)
    ensures AddDigits(a, b, FlagOf(f.c)) == Daa(Sum(a, b, Carry(f, true)), AddFlags(a, b, Carry(f, true), false))
  {
  }

  lemma DifferenceOf(a: Byte, b: Byte, f: Flags)
    ensures SubDigits(a, b, FlagOf(f.c)) == Daa(Difference(a, b, Carry(f, true)), SubFlags(a, b, Carry(f, true), true))
  {
  }

  lemma NextChain(all: Chain, done: seq<Byte>, d: Byte, rest: Chain)
    ensures all == Chain(done + ([d] + rest.digits), rest.c) ==> all == Chain((done + [d]) + rest.digits, rest.c)
  {
    assert done + ([d] + rest.digits) == (done + [d]) + rest.digits;
  }

  lemma AddChainStep(a: seq<Byte>, b: seq<Byte>, i: nat, c: int)
    requires |a| == |b| && i < |a| && 0 <= c <= 1
    ensures var d := AddDigits(a[i], b[i], c);
      var rest := AddChain(a[i + 1..], b[i + 1..], FlagOf(d.f.c));
      AddChain(a[i..], b[i..], c) == Chain([d.a] + rest.digits, rest.c)
  {
    hide AddDigits;
    assert a[i..][1..] == a[i + 1..] && b[i..][1..] == b[i + 1..];
  }

  lemma AddChainEnd(c: int)
    requires 0 <= c <= 1
    ensures AddChain([], [], c) == Chain([], c)
  {
  }

  lemma SubChainStep(a: seq<Byte>, b: seq<Byte>, i: nat, c: int)
    requires |a| == |b| && i < |a| && 0 <= c <= 1
    ensures var d := SubDigits(a[i], b[i], c);
      var rest := SubChain(a[i + 1..], b[i + 1..], FlagOf(d.f.c));
      SubChain(a[i..], b[i..], c) == Chain([d.a] + rest.digits, rest.c)
  {
    hide SubDigits;
    assert a[i..][1..] == a[i + 1..] && b[i..][1..] == b[i + 1..];
  }

  lemma SubChainEnd(c: int)
    requires 0 <= c <= 1
    ensures SubChain([], [], c) == Chain([], c)
  {
  }

  // ---- Writes one after the other

  lemma {:induction false} StoredFirst(b: bv8, w: FlagWrite, ws: seq<FlagWrite>)
    ensures AllStored(b, [w] + ws) == AllStored(Stored(b, w), ws)
    decreases |ws|
  {
    hide Stored;
    if ws == [] {
      assert [w] + ws == [w] && [w][..0] == [];
    } else {
      StoredFirst(b, w, ws[..|ws| - 1]);
      assert ([w] + ws)[..|ws|] == [w] + ws[..|ws| - 1];
    }
  }

  lemma FirstConforms(w: FlagWrite, ws: seq<FlagWrite>, script: seq<Deed>)
    requires Conforms(ws, script)
    ensures Conforms([w] + ws, [Does(w)] + script)
  {
    assert ([w] + ws)[1..] == ws && ([Does(w)] + script)[1..] == script;
  }

  lemma FourStored(b: bv8, w1: FlagWrite, w2: FlagWrite, w3: FlagWrite, w4: FlagWrite)
    ensures AllStored(b, [w1]) == Stored(b, w1)
    ensures AllStored(b, [w1, w2]) == Stored(Stored(b, w1), w2)
    ensures AllStored(b, [w1, w2, w3]) == Stored(Stored(Stored(b, w1), w2), w3)
    ensures AllStored(b, [w1, w2, w3, w4]) == Stored(Stored(Stored(Stored(b, w1), w2), w3), w4)
  {
    hide Stored;
    assert [w1][..0] == [];
    assert AllStored(b, [w1]) == Stored(b, w1);
    assert [w1, w2][..1] == [w1];
    assert AllStored(b, [w1, w2]) == Stored(Stored(b, w1), w2);
    assert [w1, w2, w3][..2] == [w1, w2];
    assert AllStored(b, [w1, w2, w3]) == Stored(Stored(Stored(b, w1), w2), w3);
    assert [w1, w2, w3, w4][..3] == [w1, w2, w3];
  }

  lemma AddingConforms(w1: FlagWrite, w2: FlagWrite, w3: FlagWrite, w4: FlagWrite)
    requires w1 == SetFlag(Z) || w1 == ClearFlag(Z)
    requires w2 == SetFlag(Z) || w2 == ClearFlag(Z)
    requires w3 == SetFlag(C) || w3 == ClearFlag(C)
    requires w4 == SetFlag(H) || w4 == ClearFlag(H)
    ensures Conforms([w1, w2, w3, w4], ADDING)
  {
    assert ADDING[1..] == [Decides(Z), Decides(C), Decides(H)];
    assert ADDING[1..][1..] == [Decides(C), Decides(H)];
    assert ADDING[1..][1..][1..] == [Decides(H)];
    assert ADDING[1..][1..][1..][1..] == [];
    assert [w1, w2, w3, w4][1..] == [w2, w3, w4] && [w2, w3, w4][1..] == [w3, w4];
    assert [w3, w4][1..] == [w4] && [w4][1..] == [];
    assert Conforms([], []);
    assert Conforms([w4], [Decides(H)]);
    assert Conforms([w3, w4], [Decides(C), Decides(H)]);
    assert Conforms([w2, w3, w4], [Decides(Z), Decides(C), Decides(H)]);
  }

  lemma SubtractingConforms(w1: FlagWrite, w2: FlagWrite, w3: FlagWrite)
    requires w1 == SetFlag(Z) || w1 == ClearFlag(Z)
    requires w2 == SetFlag(C) || w2 == ClearFlag(C)
    requires w3 == SetFlag(H) || w3 == ClearFlag(H)
    ensures Conforms([w1, w2, w3], SUBTRACTING)
  {
    assert SUBTRACTING[1..] == [Decides(C), Decides(H)] && SUBTRACTING[1..][1..] == [Decides(H)];
    assert [Decides(H)][1..] == [] && [w1, w2, w3][1..] == [w2, w3] && [w2, w3][1..] == [w3] && [w3][1..] == [];
    assert Conforms([], []);
    assert Conforms([w3], [Decides(H)]);
    assert Conforms([w2, w3], [Decides(C), Decides(H)]);
  }

  // DAA, with the carry set or left alone.
  lemma AdjustingConforms(w1: FlagWrite, w2: FlagWrite)
    requires w1 == ClearFlag(H) && (w2 == SetFlag(Z) || w2 == ClearFlag(Z))
    ensures Conforms([w1, w2], DAA_SCRIPT) && Conforms([SetFlag(C), w1, w2], DAA_SCRIPT)
  {
    assert DAA_SCRIPT[1..] == [Does(ClearFlag(H)), Decides(Z)] && DAA_SCRIPT[1..][1..] == [Decides(Z)];
    assert [Decides(Z)][1..] == [] && [w1, w2][1..] == [w2] && [w2][1..] == [] && [SetFlag(C), w1, w2][1..] == [w1, w2];
    assert Conforms([], []);
    assert Conforms([w2], [Decides(Z)]);
    assert Conforms([w1, w2], [Does(ClearFlag(H)), Decides(Z)]);
  }
}
