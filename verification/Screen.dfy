/** The machine's loop: tick after tick of the picture unit, until the frame buffer holds the picture. */
module Screen {
  import opened Bytes
  import opened Outputs
  import opened PpuCore
  import opened Conservation
  import opened Batching
  import opened Frame
  import opened History
  import opened Startup
  import PpuUnit

  lemma FirstBatch(p: Ppu, sizes: seq<nat>)
    requires p.Valid() && sizes != []
    ensures var b := Batch(p, sizes[0]);
      Batches(p, sizes) == Out(Batches(b.p, sizes[1..]).p, b.o + Batches(b.p, sizes[1..]).o)
  {
    hide Batch;
  }

  // Ticks the unit by the cycles that one instruction after another reports.
  method RunAll(ppu: PpuUnit.Ppu, elapsed: seq<Byte>)
    requires ppu.Valid()
    modifies ppu, ppu.mRegs, ppu.mFoundObjs, ppu.mIC, ppu.mFetcher, ppu.mFIFO, ppu.mFIFO.mBGPixs, ppu.mFIFO.mOBJPixs,
             ppu.frameBuf
    ensures ppu.Valid() && ppu.Model() == Batches(old(ppu.Model()), elapsed).p
    ensures ppu.Did(Batches(old(ppu.Model()), elapsed).o, old(ppu.Frame()), old(ppu.mIC.Model()))
  {
    hide Batch, Batches, Shown, Requested, Ppu.Valid;
    ghost var start, outs := ppu.Model(), [];
    ppu.NothingDone();
    var i := 0;
    assert elapsed[0..] == elapsed;
    while i < |elapsed|
      invariant 0 <= i <= |elapsed| && ppu.Valid()
      invariant ppu.Did(outs, old(ppu.Frame()), old(ppu.mIC.Model()))
      invariant var r := Batches(ppu.Model(), elapsed[i..]); Batches(start, elapsed) == Out(r.p, outs + r.o)
    {
      ghost var p, frame, lines := ppu.Model(), ppu.Frame(), ppu.mIC.Model();
      FirstBatch(p, elapsed[i..]);
      ppu.Tick(elapsed[i]);
      ghost var o := Batch(p, elapsed[i]).o;
      ppu.Then(outs, o, old(ppu.Frame()), frame, old(ppu.mIC.Model()), lines);
      assert elapsed[i..][1..] == elapsed[i + 1..];
      OutputRegroup(outs, o, Batches(ppu.Model(), elapsed[i + 1..]).o);
      outs := outs + o;
      i := i + 1;
    }
    NoBatches(ppu.Model());
    assert outs + [] == outs;
  }

  lemma NoBatches(p: Ppu)
    requires p.Valid()
    ensures Batches(p, []) == Out(p, [])
  {
  }

  // The unit under any history of ticks and writes, as the bus and the DMA make them.
  method Drive(ppu: PpuUnit.Ppu, events: seq<Event>)
    requires ppu.Valid()
    modifies ppu, ppu.mRegs, ppu.mFoundObjs, ppu.mIC, ppu.mFetcher, ppu.mFIFO, ppu.mFIFO.mBGPixs, ppu.mFIFO.mOBJPixs,
             ppu.frameBuf, ppu.mVRAM, ppu.mOAM
    ensures ppu.Valid() && ppu.Model() == AfterAll(old(ppu.Model()), events)
    ensures old(Consistent(ppu.Model())) ==> Consistent(ppu.Model())
  {
    hide Batch, Written, WrittenByDma, Ppu.Valid, Shown, Requested, Consistent;
    ghost var start := ppu.Model();
    var i := 0;
    assert events[0..] == events;
    while i < |events|
      invariant 0 <= i <= |events| && ppu.Valid()
      invariant AfterAll(ppu.Model(), events[i..]) == AfterAll(start, events)
    {
      assert events[i..][1..] == events[i + 1..];
      match events[i] {
        case Tick(cycles) => ppu.Tick(cycles);
        case Write(addr, val) => ppu.WriteAddr(addr, val);
        case DmaWrite(addr, val) => ppu.WriteAddrDMA(addr, val);
        case SetDma(on) => ppu.SetOAMDMA(on);
      }
      i := i + 1;
    }
    if Consistent(start) {
      AlwaysConsistent(start, events);
    }
  }

  // From any moment of a running unit, ticks to the end of the second frame after this one leave the
  // picture in the frame buffer.
  method RunToPicture(ppu: PpuUnit.Ppu, elapsed: seq<Byte>)
    requires ppu.Valid() && Healthy(ppu.Model()) && ppu.mEnabled && WindowFits(ppu.mRegs.Model())
    requires Sum(elapsed) == DotsToPicture(ppu.Model())
    modifies ppu, ppu.mRegs, ppu.mFoundObjs, ppu.mIC, ppu.mFetcher, ppu.mFIFO, ppu.mFIFO.mBGPixs, ppu.mFIFO.mOBJPixs,
             ppu.frameBuf
    ensures ppu.Valid() && FrameStart(ppu.Model()) && SameSettings(old(ppu.Model()), ppu.Model())
    ensures forall y: Row, x: Col :: BytesShow(ppu.Model(), y, x, ppu.Frame()[y][x])
  {
    hide Batches, PictureAt, FrameStart, WindowFits, Requested, Cell, SameSettings, Healthy, BytesShow;
    PictureComes(ppu.Model(), elapsed);
    RunAll(ppu, elapsed);
  }

  // A frame's worth of ticks leaves the picture in the frame buffer, whatever it held before, and the
  // unit at the start of the next frame.
  method RunFrame(ppu: PpuUnit.Ppu, elapsed: seq<Byte>)
    requires ppu.Valid() && FrameStart(ppu.Model()) && WindowFits(ppu.mRegs.Model())
    requires Sum(elapsed) == FRAME_CYCLES
    modifies ppu, ppu.mRegs, ppu.mFoundObjs, ppu.mIC, ppu.mFetcher, ppu.mFIFO, ppu.mFIFO.mBGPixs, ppu.mFIFO.mOBJPixs,
             ppu.frameBuf
    ensures ppu.Valid() && NextFrame(old(ppu.Model()), ppu.Model())
    ensures forall y: Row, x: Col :: BytesShow(old(ppu.Model()), y, x, ppu.Frame()[y][x])
  {
    hide Batches, PictureAt, NextFrame, FrameStart, WindowFits, Requested, Cell, Writes, Requests, BytesShow;
    FrameShowsPicture(ppu.Model(), elapsed);
    RunAll(ppu, elapsed);
  }
}
