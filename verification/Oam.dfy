/** Object attribute memory: decoding an entry, finding the objects of a line, and ordering them. */
module Oam {
  import opened Bytes

  const MAX_NUM_OBJS := 10
  const OAM_SIZE := 0xA0

  datatype OamEntry = OamEntry(oamIdx: nat, x: Byte, y: Byte, tile: Byte, flags: Byte,
                               yFlip: bool, xFlip: bool, belowBG: bool, OBP1: bool)

  const NO_ENTRY := OamEntry(0, 0, 0, 0, 0, false, false, false, false)

  function EntryAt(oam: seq<Byte>, idx: nat): OamEntry
    requires |oam| == OAM_SIZE && idx < 40
  {
    var flags := oam[4 * idx + 3];
    OamEntry(idx, oam[4 * idx + 1], oam[4 * idx], oam[4 * idx + 2], flags,
             flags / 0x40 % 2 == 1, flags / 0x20 % 2 == 1, flags / 0x80 % 2 == 1, flags / 0x10 % 2 == 1)
  }

  // The object has a row on line `ly`.
  predicate Covers(y: Byte, ly: Byte, tall: bool)
  {
    y <= ly + 16 < y + (if tall then 16 else 8)
  }

  // All objects with a row on the line, from entry `idx` on, in OAM order.
  function OnLine(oam: seq<Byte>, ly: Byte, tall: bool, idx: nat): (s: seq<OamEntry>)
    requires |oam| == OAM_SIZE && idx <= 40
    ensures |s| <= 40 - idx
    decreases 40 - idx
  {
    if idx == 40 then []
    else if Covers(oam[4 * idx], ly, tall) then [EntryAt(oam, idx)] + OnLine(oam, ly, tall, idx + 1)
    else OnLine(oam, ly, tall, idx + 1)
  }

  function FirstTen(s: seq<OamEntry>): (r: seq<OamEntry>)
    ensures |r| <= MAX_NUM_OBJS
  {
    if |s| <= MAX_NUM_OBJS then s else s[..MAX_NUM_OBJS]
  }

  // The priority order of objects: smaller x first, then smaller OAM index.
  predicate Before(a: OamEntry, b: OamEntry)
  {
    a.x < b.x || (a.x == b.x && a.oamIdx < b.oamIdx)
  }

  function Swapped<T>(s: seq<T>, i: nat, j: nat): (r: seq<T>)
    requires i < |s| && j < |s|
    ensures |r| == |s|
  {
    s[i := s[j]][j := s[i]]
  }

  // The inner loop of the exchange sort, from `j` on.
  function InnerPass(s: seq<OamEntry>, i: nat, j: nat): (r: seq<OamEntry>)
    requires i < j <= |s|
    ensures |r| == |s|
    decreases |s| - j
  {
    if j == |s| then s else InnerPass(Exchanged(s, i, j), i, j + 1)
  }

  function Exchanged(s: seq<OamEntry>, i: nat, j: nat): (r: seq<OamEntry>)
    requires i < j < |s|
    ensures |r| == |s|
  {
    if Before(s[j], s[i]) then Swapped(s, i, j) else s
  }

  // The outer loop, from `i` on.
  function ExchangeSort(s: seq<OamEntry>, i: nat): (r: seq<OamEntry>)
    ensures |r| == |s|
    decreases |s| - i
  {
    if i + 1 >= |s| then s else ExchangeSort(InnerPass(s, i, i + 1), i + 1)
  }

  // What mode 2 leaves in the object list for a line.
  function LineObjs(oam: seq<Byte>, ly: Byte, tall: bool): (s: seq<OamEntry>)
    requires |oam| == OAM_SIZE
    ensures |s| <= MAX_NUM_OBJS
  {
    ExchangeSort(FirstTen(OnLine(oam, ly, tall, 0)), 0)
  }

  // ---- The search finds exactly the objects of the line

  ghost predicate IndexOrdered(s: seq<OamEntry>)
  {
    forall i, j :: 0 <= i < j < |s| ==> s[i].oamIdx < s[j].oamIdx
  }

  lemma {:induction false} OnLineMember(oam: seq<Byte>, ly: Byte, tall: bool, idx: nat, e: OamEntry)
    requires |oam| == OAM_SIZE && idx <= 40
    ensures e in OnLine(oam, ly, tall, idx) <==>
              (idx <= e.oamIdx < 40 && e == EntryAt(oam, e.oamIdx) && Covers(e.y, ly, tall))
    decreases 40 - idx
  {
    if idx < 40 {
      OnLineMember(oam, ly, tall, idx + 1, e);
      var later := OnLine(oam, ly, tall, idx + 1);
      assert e in [EntryAt(oam, idx)] + later <==> e == EntryAt(oam, idx) || e in later;
      assert EntryAt(oam, idx).oamIdx == idx && EntryAt(oam, idx).y == oam[4 * idx];
    }
  }

  lemma {:induction false} OnLineOrdered(oam: seq<Byte>, ly: Byte, tall: bool, idx: nat)
    requires |oam| == OAM_SIZE && idx <= 40
    ensures IndexOrdered(OnLine(oam, ly, tall, idx))
    ensures forall i :: 0 <= i < |OnLine(oam, ly, tall, idx)| ==> OnLine(oam, ly, tall, idx)[i].oamIdx >= idx
    decreases 40 - idx
  {
    if idx < 40 {
      OnLineOrdered(oam, ly, tall, idx + 1);
    }
  }

  // ---- The exchange sort orders them

  // Everything before `i` is in order and precedes everything from `i` on.
  ghost predicate SortedUpTo(s: seq<OamEntry>, i: nat)
  {
    forall a, b :: 0 <= a < i && a < b < |s| ==> !Before(s[b], s[a])
  }

  ghost predicate StrictlyOrdered(s: seq<OamEntry>)
  {
    forall a, b :: 0 <= a < b < |s| ==> Before(s[a], s[b])
  }

  ghost predicate DistinctIndices(s: seq<OamEntry>)
  {
    forall a, b :: 0 <= a < b < |s| ==> s[a].oamIdx != s[b].oamIdx
  }

  lemma SwappedKeeps<T>(s: seq<T>, i: nat, j: nat)
    requires i < j < |s|
    ensures multiset(Swapped(s, i, j)) == multiset(s)
  {
    assert s == s[..i] + [s[i]] + s[i + 1..j] + [s[j]] + s[j + 1..];
    assert Swapped(s, i, j) == s[..i] + [s[j]] + s[i + 1..j] + [s[i]] + s[j + 1..];
  }

  // Position `i` holds a least element of what has been looked at up to `j`.
  ghost predicate LeastUpTo(s: seq<OamEntry>, i: nat, j: nat)
    requires i < j <= |s|
  {
    forall b :: i < b < j ==> !Before(s[b], s[i])
  }

  lemma ExchangeKeeps(s: seq<OamEntry>, i: nat, j: nat)
    requires i < j < |s|
    requires SortedUpTo(s, i) && DistinctIndices(s) && LeastUpTo(s, i, j)
    ensures var r := Exchanged(s, i, j);
      SortedUpTo(r, i) && DistinctIndices(r) && LeastUpTo(r, i, j + 1) && multiset(r) == multiset(s)
  {
    if Before(s[j], s[i]) {
      SwappedKeeps(s, i, j);
    }
  }

  lemma {:induction false} InnerPassSelects(s: seq<OamEntry>, i: nat, j: nat)
    requires i < j <= |s|
    requires SortedUpTo(s, i) && DistinctIndices(s) && LeastUpTo(s, i, j)
    ensures var r := InnerPass(s, i, j);
      SortedUpTo(r, i + 1) && DistinctIndices(r) && multiset(r) == multiset(s)
    decreases |s| - j
  {
    hide Exchanged, DistinctIndices, Before;
    if j < |s| {
      ExchangeKeeps(s, i, j);
      InnerPassSelects(Exchanged(s, i, j), i, j + 1);
    }
  }

  lemma {:induction false} ExchangeSortSorts(s: seq<OamEntry>, i: nat)
    requires SortedUpTo(s, i) && DistinctIndices(s)
    ensures StrictlyOrdered(ExchangeSort(s, i))
    ensures multiset(ExchangeSort(s, i)) == multiset(s)
    decreases |s| - i
  {
    if i + 1 < |s| {
      InnerPassSelects(s, i, i + 1);
      ExchangeSortSorts(InnerPass(s, i, i + 1), i + 1);
    }
  }

  // Mode 2 keeps the first ten objects of the line, in OAM order, and orders them strictly by
  // (x, OAM index), losing and inventing none.
  lemma LineObjsCorrect(oam: seq<Byte>, ly: Byte, tall: bool)
    requires |oam| == OAM_SIZE
    ensures StrictlyOrdered(LineObjs(oam, ly, tall))
    ensures multiset(LineObjs(oam, ly, tall)) == multiset(FirstTen(OnLine(oam, ly, tall, 0)))
    ensures forall e :: e in LineObjs(oam, ly, tall) ==>
              (0 <= e.oamIdx < 40 && e == EntryAt(oam, e.oamIdx) && Covers(e.y, ly, tall))
  {
    OnLineOrdered(oam, ly, tall, 0);
    var found := FirstTen(OnLine(oam, ly, tall, 0));
    ExchangeSortSorts(found, 0);
    forall e | e in LineObjs(oam, ly, tall)
      ensures e in OnLine(oam, ly, tall, 0)
    {
      assert e in multiset(found);
    }
    forall e | e in LineObjs(oam, ly, tall)
      ensures 0 <= e.oamIdx < 40 && e == EntryAt(oam, e.oamIdx) && Covers(e.y, ly, tall)
    {
      OnLineMember(oam, ly, tall, 0, e);
    }
  }

  // ---- What an entry holds

  // The four bytes of an entry come back from it, and the upper half of the last is its four attributes.
  lemma EntryBytes(oam: seq<Byte>, idx: nat)
    requires |oam| == OAM_SIZE && idx < 40
    ensures var e := EntryAt(oam, idx);
      && e.oamIdx == idx && oam[4 * idx..4 * idx + 4] == [e.y, e.x, e.tile, e.flags]
      && e.flags / 0x10 == (if e.belowBG then 8 else 0) + (if e.yFlip then 4 else 0)
                           + (if e.xFlip then 2 else 0) + (if e.OBP1 then 1 else 0)
  {
    UpperBits(oam[4 * idx + 3]);
  }

  lemma UpperBits(b: Byte)
    ensures b / 0x10 == b / 0x80 % 2 * 8 + b / 0x40 % 2 * 4 + b / 0x20 % 2 * 2 + b / 0x10 % 2
  {
    var n := b / 0x10;
    assert b / 0x80 == n / 8 && b / 0x40 == n / 4 && b / 0x20 == n / 2 && n < 16;
  }

  // ---- The same on the array of found objects

  method ReadEntry(oam: array<Byte>, idx: nat) returns (e: OamEntry)
    requires oam.Length == OAM_SIZE && idx < 40
    ensures e == EntryAt(oam[..], idx)
  {
    var flags := oam[4 * idx + 3];
    e := OamEntry(idx, oam[4 * idx + 1], oam[4 * idx], oam[4 * idx + 2], flags,
      flags / 0x40 % 2 == 1, flags / 0x20 % 2 == 1, flags / 0x80 % 2 == 1, flags / 0x10 % 2 == 1);
  }

  // One step of the search: the entry at `idx` joins the list if it is on the line.
  method ConsiderEntry(oam: array<Byte>, ly: Byte, tall: bool, found: array<OamEntry>, numObjs: nat, idx: nat)
    returns (num: nat)
    requires oam.Length == OAM_SIZE && found.Length == MAX_NUM_OBJS && idx < 40 && numObjs < MAX_NUM_OBJS
    modifies found
    ensures numObjs <= num <= numObjs + 1
    ensures found[..num] + OnLine(oam[..], ly, tall, idx + 1) == old(found[..numObjs]) + OnLine(oam[..], ly, tall, idx)
    ensures found[num..] == old(found[num..])
  {
    num := numObjs;
    if Covers(oam[4 * idx], ly, tall) {
      var e := ReadEntry(oam, idx);
      ghost var later := OnLine(oam[..], ly, tall, idx + 1);
      assert OnLine(oam[..], ly, tall, idx) == [e] + later;
      found[numObjs] := e;
      assert found[..numObjs + 1] == old(found[..numObjs]) + [e];
      num := numObjs + 1;
    }
  }

  method SearchOam(oam: array<Byte>, ly: Byte, tall: bool, found: array<OamEntry>) returns (numObjs: nat)
    requires oam.Length == OAM_SIZE && found.Length == MAX_NUM_OBJS
    modifies found
    ensures numObjs == |FirstTen(OnLine(oam[..], ly, tall, 0))|
    ensures found[..] == FirstTen(OnLine(oam[..], ly, tall, 0)) + old(found[numObjs..])
  {
    hide Covers, EntryAt;
    numObjs := 0;
    var idx := 0;
    ghost var all := OnLine(oam[..], ly, tall, 0);
    while idx < 40 && numObjs < MAX_NUM_OBJS
      invariant 0 <= idx <= 40 && 0 <= numObjs <= MAX_NUM_OBJS
      invariant oam[..] == old(oam[..])
      invariant found[..numObjs] + OnLine(oam[..], ly, tall, idx) == all
      invariant found[numObjs..] == old(found[numObjs..])
    {
      ghost var before := found[numObjs..];
      var num := ConsiderEntry(oam, ly, tall, found, numObjs, idx);
      assert found[num..] == before[num - numObjs..];
      numObjs, idx := num, idx + 1;
    }
    assert found[..numObjs] == FirstTen(all);
    assert found[..] == found[..numObjs] + found[numObjs..];
  }

  // One comparison of the sort, with the exchange it may lead to.
  method CompareExchange(found: array<OamEntry>, numObjs: nat, idx: nat, idx2: nat)
    requires found.Length == MAX_NUM_OBJS && idx < idx2 < numObjs <= MAX_NUM_OBJS
    modifies found
    ensures found[..numObjs] == Exchanged(old(found[..numObjs]), idx, idx2)
    ensures found[numObjs..] == old(found[numObjs..])
  {
    var a, b := found[idx], found[idx2];
    if b.x < a.x || (b.x == a.x && b.oamIdx < a.oamIdx) {
      found[idx2], found[idx] := a, b;
    }
    assert found[..numObjs] == Exchanged(old(found[..numObjs]), idx, idx2);
  }

  method SortFound(found: array<OamEntry>, numObjs: nat)
    requires found.Length == MAX_NUM_OBJS && numObjs <= MAX_NUM_OBJS
    modifies found
    ensures found[..] == ExchangeSort(old(found[..numObjs]), 0) + old(found[numObjs..])
  {
    hide Exchanged;
    ghost var goal := ExchangeSort(found[..numObjs], 0);
    var idx := 0;
    while idx < numObjs - 1
      invariant 0 <= idx && (idx < numObjs || numObjs == 0)
      invariant ExchangeSort(found[..numObjs], idx) == goal
      invariant found[numObjs..] == old(found[numObjs..])
    {
      ghost var pass := InnerPass(found[..numObjs], idx, idx + 1);
      var idx2 := idx + 1;
      while idx2 < numObjs
        invariant idx < idx2 <= numObjs
        invariant InnerPass(found[..numObjs], idx, idx2) == pass
        invariant found[numObjs..] == old(found[numObjs..])
      {
        CompareExchange(found, numObjs, idx, idx2);
        idx2 := idx2 + 1;
      }
      idx := idx + 1;
    }
    assert found[..] == found[..numObjs] + found[numObjs..];
  }
}
