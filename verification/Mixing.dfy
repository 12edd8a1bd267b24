/** The object queue over a whole run: objects mixed in at their own columns, pixels popped in between. */
module Mixing {
  import opened Bytes
  import opened Pixels
  import opened PixelFifo
  import opened Oam
  import opened Fetch
  import opened Picture
  import opened Objects

  datatype Step = Load(e: OamEntry) | Pop

  // The queue, which starts out empty, after some steps.
  ghost function QueueAfter(s: Scene, steps: seq<Step>): (q: seq<Pixel>)
    requires s.Valid()
    ensures |q| <= 8
  {
    if steps == [] then []
    else
      var q := QueueAfter(s, steps[..|steps| - 1]);
      match steps[|steps| - 1]
      case Load(e) => MixedLine(q, ObjectRow(e, s))
      case Pop => Rest(q)
  }

  function Pops(steps: seq<Step>): nat
  {
    if steps == [] then 0 else Pops(steps[..|steps| - 1]) + (if steps[|steps| - 1].Pop? then 1 else 0)
  }

  function Loads(steps: seq<Step>): seq<OamEntry>
  {
    if steps == [] then []
    else
      var loads := Loads(steps[..|steps| - 1]);
      if steps[|steps| - 1].Load? then loads + [steps[|steps| - 1].e] else loads
  }

  // Every object arrives at its own column, the first column being x.
  ghost predicate OnTime(steps: seq<Step>, x: int)
  {
    forall k :: 0 <= k < |steps| && steps[k].Load? ==> steps[k].e.x == x + Pops(steps[..k]) + 8
  }

  lemma OnTimeBefore(steps: seq<Step>, x: int, n: nat)
    requires n <= |steps| && OnTime(steps, x)
    ensures OnTime(steps[..n], x)
  {
    forall k | 0 <= k < n && steps[k].Load?
      ensures steps[..n][k].e.x == x + Pops(steps[..n][..k]) + 8
    {
      assert steps[..n][..k] == steps[..k];
    }
  }

  lemma {:induction false} RunIsQueued(s: Scene, steps: seq<Step>, x: int)
    requires s.Valid() && OnTime(steps, x)
    ensures Queued(QueueAfter(s, steps), Loads(steps), s, x + Pops(steps))
  {
    hide Queued, OnTime, ObjectRow;
    if steps == [] {
      NothingQueued(s, x);
    } else {
      var n := |steps| - 1;
      var front, last := steps[..n], steps[n];
      OnTimeBefore(steps, x, n);
      RunIsQueued(s, front, x);
      if last.Load? {
        LoadOnTime(steps, x, n);
        QueuedMix(QueueAfter(s, front), Loads(front), s, x + Pops(front), last.e);
      } else {
        QueuedPop(QueueAfter(s, front), Loads(front), s, x + Pops(front));
      }
    }
  }

  lemma NothingQueued(s: Scene, x: int)
    requires s.Valid()
    ensures Queued([], [], s, x)
  {
  }

  lemma LoadOnTime(steps: seq<Step>, x: int, k: nat)
    requires k < |steps| && OnTime(steps, x) && steps[k].Load?
    ensures steps[k].e.x == x + Pops(steps[..k]) + 8
  {
  }

  // The objects loaded later come after those loaded before, and none of them starts by this column.
  lemma {:induction false} LaterLoads(steps: seq<Step>, x: int, n: nat)
    requires n < |steps| && steps[n].Pop? && OnTime(steps, x)
    ensures var early, all := Loads(steps[..n]), Loads(steps);
      && Pops(steps) > Pops(steps[..n]) && |early| <= |all| && all[..|early|] == early
      && forall k :: |early| <= k < |all| ==> all[k].x > x + Pops(steps[..n]) + 8
  {
    hide OnTime;
    var m := |steps| - 1;
    var front := steps[..m];
    if n < m {
      OnTimeBefore(steps, x, m);
      LaterLoads(front, x, n);
      assert front[..n] == steps[..n];
      if steps[m].Load? {
        LoadOnTime(steps, x, m);
      }
    }
  }

  // Whatever the interleaving, the pixel popped at a column is that of the first loaded object that
  // is opaque there, or a transparent one, or none, if there is no such object; and loading is
  // never late: the objects loaded after the pop do not reach back to the column.
  lemma PoppedIsWinner(s: Scene, steps: seq<Step>, x: int, n: nat)
    requires s.Valid() && OnTime(steps, x) && n < |steps| && steps[n].Pop?
    ensures var q, top := QueueAfter(s, steps[..n]), TopObject(Loads(steps), s, x + Pops(steps[..n]));
      if q == [] then top == None else Shows(q[0], top)
  {
    hide QueueAfter, Loads, Pops, OnTime, TopObject;
    var c, early := x + Pops(steps[..n]), Loads(steps[..n]);
    OnTimeBefore(steps, x, n);
    RunIsQueued(s, steps[..n], x);
    LaterLoads(steps, x, n);
    TopObjectPrefix(Loads(steps), s, c, |early|);
    var q := QueueAfter(s, steps[..n]);
    if q == [] {
      TopObjectBeyond(early, s, c);
    } else {
      assert Shows(q[0], TopObject(early, s, c + 0));
    }
  }
}
