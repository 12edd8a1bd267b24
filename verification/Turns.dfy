/** Every object of a line is fetched once, in order and at its own column, whatever else is written. */
module Turns {
  import opened Bytes
  import opened Registers
  import opened Oam
  import opened Fetch
  import opened Outputs
  import opened PpuCore
  import opened Mode3
  import opened Conservation
  import opened Objects
  import History

  // The objects already started lie at or before this column, the others at or beyond it.
  ghost predicate Ordered(p: Ppu)
    requires |p.found| == MAX_NUM_OBJS && p.curObj <= p.numObjs <= MAX_NUM_OBJS
  {
    && OrderedByX(p.found[..p.numObjs])
    && (forall k :: 0 <= k < p.curObj ==> p.found[k].x <= p.x + 8)
    && (forall k :: p.curObj <= k < p.numObjs ==> p.found[k].x >= p.x + 8)
  }

  // A line with objects on, under way. The object being fetched is the last one started, or, before
  // any has been started, one left over from a line that was cut short.
  ghost predicate InTurn(p: Ppu)
  {
    && Inv(p) && p.enabled && p.Mode() == DataXfer && p.regs.lcdc.objOn && Ordered(p)
    && (p.pipe.f.sprite.Some? && p.curObj > 0 ==> p.pipe.f.sprite.value == p.curObj - 1)
  }

  // ---- What the object fetcher is seen to do

  datatype Fetching = Begun(k: int, column: int) | Finished(k: int)

  // An object begins when the counter of started objects goes up; one is finished when it no longer is
  // the one being fetched.
  function Seen(p: Ppu, d: Ppu): seq<Fetching>
  {
    var begun := d.curObj > p.curObj && d.pipe.f.sprite.Some?;
    var finished := p.pipe.f.sprite.Some? && (begun || d.pipe.f.sprite.None?);
    (if finished then [Finished(p.pipe.f.sprite.value)] else [])
    + (if begun then [Begun(d.pipe.f.sprite.value, d.x)] else [])
  }

  // The first n objects, fetched one after the other, each at its own column.
  function InOrder(found: seq<OamEntry>, n: nat): seq<Fetching>
    requires n <= |found|
  {
    if n == 0 then [] else InOrder(found, n - 1) + [Begun(n - 1, found[n - 1].x - 8), Finished(n - 1)]
  }

  function LeftOver(stale: Option<nat>): seq<Fetching>
  {
    if stale.Some? then [Finished(stale.value)] else []
  }

  // What should have been seen when the line has got as far as p; `stale` is the object that was
  // being fetched when it began.
  function SoFar(p: Ppu, stale: Option<nat>): seq<Fetching>
    requires p.curObj <= |p.found|
  {
    if p.pipe.f.sprite.None? then LeftOver(stale) + InOrder(p.found, p.curObj)
    else if p.curObj == 0 then []
    else LeftOver(stale) + InOrder(p.found, p.curObj - 1) + [Begun(p.curObj - 1, p.found[p.curObj - 1].x - 8)]
  }

  // The left-over object is the one that is being fetched as long as none has been started.
  ghost predicate Knows(p: Ppu, stale: Option<nat>)
  {
    p.curObj == 0 && p.pipe.f.sprite.Some? ==> p.pipe.f.sprite == stale
  }

  // ---- One dot

  lemma FetchKeepsObject(p: Ppu)
    requires Inv(p)
    ensures var a, b := p.pipe.f.sprite, FetchTicked(p).pipe.f.sprite;
      && (b == a || b.None?) && (p.pipe.f.spriteStep != READ_LOW1 ==> b == a)
    ensures Inv(FetchTicked(p))
  {
    FetchCost(p);
    var p1 := BackgroundTicked(p.pipe, p.Scene());
    BackgroundTick(p.pipe, p.Scene());
    if p1.f.sprite.Some? && p1.f.step >= READ_LOW1 {
      ObjectTick(p1, p.Scene());
    }
  }

  lemma RestKeepsObject(p: Ppu)
    requires Inv(p) && p.Mode() == DataXfer
    ensures var d := WindowAndShift(p).p;
      && Inv(d) && d.curObj == p.curObj && d.pipe.f.sprite == p.pipe.f.sprite
      && ((d.x == p.x && d.Mode() == DataXfer) || (d.x == p.x + 1 && p.pipe.f.sprite.None?))
      && (d.Mode() == HBlank ==> d.x == WIDTH)
  {
    History.RestKeepsInv(p);
  }

  // The part of a dot after the objects have been seen to: the column is only passed when no object
  // is due and none is being fetched.
  lemma RestInTurn(p: Ppu)
    requires InTurn(p) && (p.pipe.f.sprite.None? ==> !ObjectDue(p))
    ensures var d := WindowAndShift(p).p;
      && (d.Mode() == DataXfer ==> InTurn(d))
      && (d.Mode() == HBlank ==> p.pipe.f.sprite.None? && AllTaken(d))
      && (p.pipe.f.sprite.Some? ==> d.x == p.x)
      && d.pipe.f.sprite == p.pipe.f.sprite && d.curObj == p.curObj && d.found == p.found && d.numObjs == p.numObjs
  {
    hide WindowAndShift, Linked, Pipe.Valid;
    RestKeepsObject(p);
    if p.pipe.f.sprite.None? {
      NoneHere(p);
    }
  }

  lemma NoneHere(p: Ppu)
    requires p.Valid() && Ordered(p) && p.regs.lcdc.objOn && !ObjectDue(p)
    ensures forall k :: p.curObj <= k < p.numObjs ==> p.found[k].x > p.x + 8
  {
    var objs := p.found[..p.numObjs];
    forall k | p.curObj <= k < p.numObjs
      ensures p.found[k].x > p.x + 8
    {
      assert objs[k] == p.found[k] && objs[p.curObj] == p.found[p.curObj];
    }
  }

  // The objects that have been started are exactly those with a column on the line.
  ghost predicate AllTaken(p: Ppu)
    requires |p.found| == MAX_NUM_OBJS && p.numObjs <= MAX_NUM_OBJS
  {
    forall k :: 0 <= k < p.numObjs ==> (p.found[k].x <= 167 <==> k < p.curObj)
  }

  lemma FetchInTurn(p: Ppu)
    requires InTurn(p)
    ensures InTurn(FetchTicked(p)) && ObjectDue(FetchTicked(p)) == ObjectDue(p)
  {
    hide FetchTicked, Linked, Pipe.Valid;
    FetchKeepsObject(p);
  }

  lemma StartInTurn(p: Ppu)
    requires InTurn(p) && p.pipe.f.sprite.None? && ObjectDue(p)
    ensures var q := StartObject(p);
      && InTurn(q) && q.pipe.f.sprite == Some(p.curObj) && q.pipe.f.spriteStep == READ_NUM0
      && p.found[p.curObj].x == p.x + 8
  {
    History.StartKeepsInv(p);
  }

  // A dot keeps the order, and what is seen in it is what comes next.
  ghost predicate Follows(p: Ppu, d: Ppu, stale: Option<nat>)
    requires p.Valid() && d.Valid()
  {
    && (d.Mode() == DataXfer || d.Mode() == HBlank) && d.found == p.found && d.numObjs == p.numObjs
    && SoFar(p, stale) + Seen(p, d) == SoFar(d, stale)
    && (p.pipe.f.sprite.None? && d.pipe.f.sprite.Some? ==> d.curObj > p.curObj)
    && (d.Mode() == DataXfer ==> InTurn(d) && Knows(d, stale))
    && (d.Mode() == HBlank ==> d.pipe.f.sprite.None? && AllTaken(d))
  }

  // Nothing begins; an object may be finished.
  lemma NothingBegun(p: Ppu, d: Ppu, stale: Option<nat>)
    requires p.Valid() && d.Valid() && InTurn(p) && Knows(p, stale)
    requires d.found == p.found && d.curObj == p.curObj
    requires d.pipe.f.sprite == p.pipe.f.sprite || d.pipe.f.sprite.None?
    ensures SoFar(p, stale) + Seen(p, d) == SoFar(d, stale) && Knows(d, stale)
  {
    hide Linked, Pipe.Valid, Ordered;
    if p.pipe.f.sprite.Some? && d.pipe.f.sprite.None? && p.curObj > 0 {
      var before, k := LeftOver(stale) + InOrder(p.found, p.curObj - 1), p.curObj - 1;
      assert InOrder(p.found, p.curObj) == InOrder(p.found, k) + [Begun(k, p.found[k].x - 8), Finished(k)];
      assert before + [Begun(k, p.found[k].x - 8)] + [Finished(k)] == SoFar(d, stale);
    }
  }

  // The next object begins, after the one being fetched is finished.
  lemma OneBegun(p: Ppu, d: Ppu, stale: Option<nat>)
    requires p.Valid() && d.Valid() && InTurn(p) && Knows(p, stale) && p.curObj < p.numObjs
    requires d.found == p.found && d.curObj == p.curObj + 1 && d.pipe.f.sprite == Some(p.curObj)
    requires d.x == p.x == p.found[p.curObj].x - 8
    ensures SoFar(p, stale) + Seen(p, d) == SoFar(d, stale) && Knows(d, stale)
  {
    hide Linked, Pipe.Valid, Ordered, Seen;
    var finished := if p.pipe.f.sprite.Some? then [Finished(p.pipe.f.sprite.value)] else [];
    assert Seen(p, d) == finished + [Begun(p.curObj, d.x)] by { SeenBoth(p, d); }
    FinishedSoFar(p, stale);
    assert SoFar(p, stale) + Seen(p, d) == (SoFar(p, stale) + finished) + [Begun(p.curObj, d.x)];
  }

  lemma SeenBoth(p: Ppu, d: Ppu)
    requires d.curObj == p.curObj + 1 && d.pipe.f.sprite == Some(p.curObj)
    ensures Seen(p, d)
         == (if p.pipe.f.sprite.Some? then [Finished(p.pipe.f.sprite.value)] else []) + [Begun(p.curObj, d.x)]
  {
  }

  lemma FinishedSoFar(p: Ppu, stale: Option<nat>)
    requires p.Valid() && InTurn(p) && Knows(p, stale)
    ensures var finished := if p.pipe.f.sprite.Some? then [Finished(p.pipe.f.sprite.value)] else [];
      SoFar(p, stale) + finished == LeftOver(stale) + InOrder(p.found, p.curObj)
  {
    hide Linked, Pipe.Valid, Ordered;
    if p.pipe.f.sprite.Some? && p.curObj > 0 {
      var k := p.curObj - 1;
      assert InOrder(p.found, p.curObj) == InOrder(p.found, k) + [Begun(k, p.found[k].x - 8), Finished(k)];
    }
  }

  lemma XferDotFollows(p: Ppu, stale: Option<nat>)
    requires InTurn(p) && Knows(p, stale)
    ensures Follows(p, XferDot(p).p, stale)
  {
    hide FetchTicked, WindowAndShift, StartObject, ObjectDue, InTurn, SoFar, Seen, Knows, AllTaken;
    TurnIsValid(p);
    if p.pipe.f.sprite.Some? {
      var p1 := FetchTicked(p);
      FetchInTurn(p);
      FetchKeepsObject(p);
      if p1.pipe.f.sprite.None? && ObjectDue(p1) {
        StartInTurn(p1);
        OneBegun(p, StartObject(p1), stale);
      } else {
        RestInTurn(p1);
        NothingBegun(p, WindowAndShift(p1).p, stale);
      }
    } else if ObjectDue(p) {
      StartInTurn(p);
      var p0 := StartObject(p);
      FetchInTurn(p0);
      FetchKeepsObject(p0);
      RestInTurn(FetchTicked(p0));
      OneBegun(p, WindowAndShift(FetchTicked(p0)).p, stale);
    } else {
      FetchInTurn(p);
      FetchKeepsObject(p);
      RestInTurn(FetchTicked(p));
      NothingBegun(p, WindowAndShift(FetchTicked(p)).p, stale);
    }
  }

  lemma TurnIsValid(p: Ppu)
    requires InTurn(p)
    ensures p.Valid() && Inv(p) && p.enabled && p.Mode() == DataXfer && p.regs.lcdc.objOn
  {
  }

  // ---- A dot, with the delay ticks that may come first

  lemma {:induction false} DelayInTurn(p: Ppu)
    requires InTurn(p)
    ensures var q := DelaySpent(p);
      && InTurn(q) && (q.pipe.f.sprite == p.pipe.f.sprite || q.pipe.f.sprite.None?)
      && q.found == p.found && q.numObjs == p.numObjs && q.curObj == p.curObj && q.x == p.x
    decreases p.delay
  {
    hide FetchTicked, Linked, Pipe.Valid;
    if p.delay > 0 {
      var p1 := p.(delay := p.delay - 1);
      FetchInTurn(p1);
      FetchKeepsObject(p1);
      DelayInTurn(FetchTicked(p1));
    }
  }

  lemma DotFollows(p: Ppu, stale: Option<nat>)
    requires InTurn(p) && Knows(p, stale)
    ensures Follows(p, Dot(p).p, stale)
  {
    hide Dot, InTurn, SoFar, Seen, Knows, AllTaken, DelaySpent, XferDot;
    TurnIsValid(p);
    DelayInTurn(p);
    var q := DelaySpent(p);
    NothingBegun(p, q, stale) by { DelayIsValid(p); }
    TurnIsValid(q);
    XferDotFollows(q, stale);
    var d := XferDot(q).p;
    SeenTwice(p, q, d);
    assert SoFar(p, stale) + Seen(p, d) == (SoFar(p, stale) + Seen(p, q)) + Seen(q, d);
    DotIs(p);
    ClockIsNoTurn(p, d, Advanced(d, 1), stale);
  }

  lemma DelayIsValid(p: Ppu)
    requires InTurn(p)
    ensures p.Valid() && DelaySpent(p).Valid()
  {
  }

  lemma DotIs(p: Ppu)
    requires p.Valid() && p.enabled && p.Mode() == DataXfer
    ensures Dot(p).p == Advanced(XferDot(DelaySpent(p)).p, 1)
  {
    hide XferDot, DelaySpent;
  }

  lemma SeenTwice(p: Ppu, q: Ppu, d: Ppu)
    requires q.curObj == p.curObj && (q.pipe.f.sprite == p.pipe.f.sprite || q.pipe.f.sprite.None?)
    requires q.pipe.f.sprite.None? && d.pipe.f.sprite.Some? ==> d.curObj > q.curObj
    ensures Seen(p, d) == Seen(p, q) + Seen(q, d)
  {
  }

  lemma ClockIsNoTurn(p: Ppu, d: Ppu, d': Ppu, stale: Option<nat>)
    requires p.Valid() && d.Valid() && d'.Valid() && d' == d.(lineCycles := d'.lineCycles)
    requires d.Mode() == DataXfer || d.Mode() == HBlank
    ensures SoFar(d', stale) == SoFar(d, stale) && Seen(p, d') == Seen(p, d)
    ensures d.Mode() == DataXfer && InTurn(d) ==> InTurn(d')
    ensures Knows(d', stale) == Knows(d, stale) && AllTaken(d') == AllTaken(d)
  {
  }

  // ---- Writes between the dots

  // Anything the bus can do but writing LCDC.
  predicate Elsewhere(e: History.Event)
  {
    !e.Tick? && !(e.Write? && e.addr == LCDC_ADDR)
  }

  ghost predicate AllElsewhere(events: seq<History.Event>)
  {
    forall i :: 0 <= i < |events| ==> Elsewhere(events[i])
  }

  // What the object machine goes by is as it was.
  ghost predicate SameTurn(p: Ppu, q: Ppu)
  {
    && q.Valid() && q.pipe == p.pipe && q.x == p.x && q.curObj == p.curObj && q.numObjs == p.numObjs
    && q.found == p.found && q.enabled == p.enabled && q.Mode() == p.Mode() && q.regs.lcdc == p.regs.lcdc
  }

  lemma WriteElsewhere(p: Ppu, e: History.Event)
    requires p.Valid() && Elsewhere(e)
    ensures SameTurn(p, History.After(p, e))
  {
    if e.Write? {
      hide Written, Pipe.Valid;
      History.WriteMovesNothing(p, e.addr, e.val);
    }
  }

  lemma {:induction false} WritesElsewhere(p: Ppu, events: seq<History.Event>)
    requires p.Valid() && AllElsewhere(events)
    ensures SameTurn(p, History.AfterAll(p, events))
    decreases |events|
  {
    hide History.After, Elsewhere;
    if events != [] {
      WriteElsewhere(p, events[0]);
      WritesElsewhere(History.After(p, events[0]), events[1..]);
    }
  }

  lemma StillInTurn(p: Ppu, q: Ppu, d: Ppu, stale: Option<nat>)
    requires p.Valid() && InTurn(p) && Knows(p, stale) && SameTurn(p, q)
    ensures InTurn(q) && Knows(q, stale) && SoFar(q, stale) == SoFar(p, stale) && Seen(q, d) == Seen(p, d)
  {
    hide Linked;
  }

  // ---- A line

  datatype Watched = Watched(p: Ppu, seen: seq<Fetching>)

  // Dot after dot of mode 3, each after some writes, until the line ends.
  ghost function Watch(p: Ppu, beats: seq<seq<History.Event>>): (w: Watched)
    requires p.Valid()
    ensures w.p.Valid()
  {
    if beats == [] then Watched(p, [])
    else
      var w := Watch(p, beats[..|beats| - 1]);
      if w.p.Mode() != DataXfer then w
      else
        var q := History.AfterAll(w.p, beats[|beats| - 1]);
        Watched(Dot(q).p, w.seen + Seen(q, Dot(q).p))
  }

  // As far as a line has got, what has been seen is what should have been.
  ghost predicate OnTrack(p: Ppu, w: Watched, stale: Option<nat>)
    requires p.Valid()
  {
    && w.p.Valid() && (w.p.Mode() == DataXfer || w.p.Mode() == HBlank)
    && w.p.found == p.found && w.p.numObjs == p.numObjs
    && SoFar(p, stale) + w.seen == SoFar(w.p, stale)
    && (w.p.Mode() == DataXfer ==> InTurn(w.p) && Knows(w.p, stale))
    && (w.p.Mode() == HBlank ==> w.p.pipe.f.sprite.None? && AllTaken(w.p))
  }

  lemma {:induction false} StaysOnTrack(p: Ppu, beats: seq<seq<History.Event>>, stale: Option<nat>)
    requires InTurn(p) && Knows(p, stale) && forall i :: 0 <= i < |beats| ==> AllElsewhere(beats[i])
    ensures p.Valid() && OnTrack(p, Watch(p, beats), stale)
    decreases |beats|
  {
    hide InTurn, Dot, SoFar, Seen, Knows, AllTaken, History.AfterAll, AllElsewhere;
    TurnIsValid(p);
    if beats == [] {
      assert SoFar(p, stale) + [] == SoFar(p, stale);
    } else {
      var front, events := beats[..|beats| - 1], beats[|beats| - 1];
      StaysOnTrack(p, front, stale);
      var w := Watch(p, front);
      if w.p.Mode() == DataXfer {
        WritesElsewhere(w.p, events);
        var q := History.AfterAll(w.p, events);
        StillInTurn(w.p, q, Dot(q).p, stale);
        DotFollows(q, stale);
        assert SoFar(p, stale) + (w.seen + Seen(q, Dot(q).p)) == (SoFar(p, stale) + w.seen) + Seen(q, Dot(q).p);
      }
    }
  }

  lemma LineTurns(p: Ppu)
    requires Inv(p) && p.enabled && p.Mode() == OamSearch && p.regs.lcdc.objOn
    ensures var q, objs := StartTransfer(p), LineObjs(p.oam, p.regs.ly, p.regs.lcdc.tallObjs);
      && InTurn(q) && Knows(q, p.pipe.f.sprite) && SoFar(q, p.pipe.f.sprite) == []
      && q.numObjs == |objs| && q.found[..|objs|] == objs
  {
    hide EntryAt, Covers, LineObjs, Linked;
    var objs := LineObjs(p.oam, p.regs.ly, p.regs.lcdc.tallObjs);
    LineObjsCorrect(p.oam, p.regs.ly, p.regs.lcdc.tallObjs);
    History.InvIsValid(p);
    TransferStart(p);
    assert StartTransfer(p).found[..|objs|] == objs;
    assert forall a, b :: 0 <= a < b < |objs| ==> Before(objs[a], objs[b]);
  }

  lemma {:induction false} InOrderPrefix(found: seq<OamEntry>, objs: seq<OamEntry>, n: nat)
    requires n <= |objs| <= |found| && found[..|objs|] == objs
    ensures InOrder(found, n) == InOrder(objs, n)
  {
    if n > 0 {
      InOrderPrefix(found, objs, n - 1);
      assert found[n - 1] == objs[n - 1];
    }
  }

  // The objects of a line that have a column on it.
  ghost predicate TakesFirst(objs: seq<OamEntry>, m: nat)
  {
    m <= |objs| && forall k :: 0 <= k < |objs| ==> (objs[k].x <= 167 <==> k < m)
  }

  // With LCDC left alone and anything else written between any two dots: when the line ends, what has
  // been fetched is every object with x up to 167, once each, in the order of the list and at its own
  // column, each finished before the next began, after whatever was left over from before.
  lemma EveryObjectOnce(p: Ppu, beats: seq<seq<History.Event>>)
    requires Inv(p) && p.enabled && p.Mode() == OamSearch && p.regs.lcdc.objOn
    requires forall i :: 0 <= i < |beats| ==> AllElsewhere(beats[i])
    ensures p.Valid()
    ensures var w := Watch(StartTransfer(p), beats);
      var objs := LineObjs(p.oam, p.regs.ly, p.regs.lcdc.tallObjs);
      w.p.Mode() == HBlank ==>
        TakesFirst(objs, w.p.curObj) && w.seen == LeftOver(p.pipe.f.sprite) + InOrder(objs, w.p.curObj)
  {
    hide Inv, InTurn, Watch, Knows, LineObjs, StartTransfer, InOrder, AllElsewhere, OnTrack, TakesFirst, SoFar;
    History.InvIsValid(p);
    LineTurns(p);
    var q, stale := StartTransfer(p), p.pipe.f.sprite;
    var objs := LineObjs(p.oam, p.regs.ly, p.regs.lcdc.tallObjs);
    StaysOnTrack(q, beats, stale);
    if Watch(q, beats).p.Mode() == HBlank {
      TrackEnds(q, Watch(q, beats), objs, stale);
    }
  }

  lemma TrackEnds(q: Ppu, w: Watched, objs: seq<OamEntry>, stale: Option<nat>)
    requires q.Valid() && OnTrack(q, w, stale) && w.p.Mode() == HBlank && SoFar(q, stale) == []
    requires q.numObjs == |objs| && q.found[..|objs|] == objs
    ensures TakesFirst(objs, w.p.curObj) && w.seen == LeftOver(stale) + InOrder(objs, w.p.curObj)
  {
    hide InTurn, Knows, InOrder, Pipe.Valid, Regs.OffsetsAgree;
    assert w.seen == [] + w.seen;
    assert forall k :: 0 <= k < |objs| ==> objs[k] == q.found[k];
    InOrderPrefix(q.found, objs, w.p.curObj);
  }
}
