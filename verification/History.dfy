/** The picture unit over any history of ticks and writes. */
module History {
  import opened Bytes
  import opened Registers
  import opened PixelFifo
  import opened Oam
  import opened Fetch
  import opened Outputs
  import opened PpuCore
  import opened Mode3
  import opened Batching

  // ---- The pipeline invariant survives every dot, in time or not

  lemma ShiftKeepsInv(p: Ppu)
    requires Inv(p) && p.Mode() == DataXfer && !Stalled(p)
    ensures Inv(Shifted(p).p)
  {
    var p1 := PixelTaken(p);
    assert Linked(p1.pipe);
  }

  lemma DotKeepsInv(p: Ppu)
    requires Inv(p) && p.Mode() == DataXfer
    ensures Inv(XferDot(p).p)
  {
    hide Linked, Shifted, StartWindow, FetchTicked, StartObject;
    if p.pipe.f.sprite.Some? {
      FetchCost(p);
      var p1 := FetchTicked(p);
      if p1.pipe.f.sprite.None? && ObjectDue(p1) {
        StartKeepsInv(p1);
      } else {
        RestKeepsInv(p1);
      }
    } else {
      if ObjectDue(p) {
        StartKeepsInv(p);
      }
      FetchCost(ObjectStarted(p));
      RestKeepsInv(FetchTicked(ObjectStarted(p)));
    }
  }

  lemma StartKeepsInv(p: Ppu)
    requires Inv(p) && ObjectDue(p)
    ensures Inv(StartObject(p))
  {
  }

  lemma RestKeepsInv(p: Ppu)
    requires Inv(p) && p.Mode() == DataXfer
    ensures Inv(WindowAndShift(p).p)
  {
    hide Shifted, StartWindow;
    if WindowDue(p) {
      WindowCost(p);
    } else if !Stalled(p) {
      ShiftKeepsInv(p);
    }
  }

  lemma {:induction false} StretchKeepsInv(p: Ppu, cycles: nat)
    requires Inv(p)
    ensures Inv(XferStretch(p, cycles).p)
    decreases cycles
  {
    hide XferDot, Linked;
    if cycles > 0 && p.Mode() == DataXfer {
      DotKeepsInv(p);
      StretchKeepsInv(XferDot(p).p, cycles - 1);
    }
  }

  lemma SegmentKeepsInv(p: Ppu, cycles: nat)
    requires Inv(p) && cycles > 0
    ensures Inv(Segment(p, cycles).p)
  {
    hide StartTransfer, FetchTicked, XferStretch, EndOfLine, Linked;
    if p.Mode() == OamSearch {
      TransferStartsHealthy(p);
    } else if p.Mode() == DataXfer {
      if p.delay > 0 {
        FetchCost(p.(delay := p.delay - 1));
      } else {
        StretchKeepsInv(p, cycles);
      }
    }
  }

  lemma {:induction false} BatchKeepsInv(p: Ppu, cycles: nat)
    requires Inv(p)
    ensures Inv(Batch(p, cycles).p)
    decreases cycles, p.delay
  {
    hide Segment, Inv;
    InvIsValid(p);
    if cycles > 0 && p.enabled {
      var s := Segment(p, cycles);
      SegmentKeepsInv(p, cycles);
      BatchKeepsInv(s.p, cycles - s.consumed);
    }
  }

  lemma InvIsValid(p: Ppu)
    requires Inv(p)
    ensures p.Valid()
  {
  }

  // The assertion in the pixel loop: a column on screen never gets the invalid pixel.
  lemma ShownPixelIsValid(p: Ppu)
    requires Inv(p) && p.Mode() == DataXfer && p.x >= 0 && !Stalled(p)
    ensures p.pipe.q.Output(p.regs) != INVALID_PIX && 0 <= p.pipe.q.Output(p.regs) < 4
    ensures p.regs.ly < HEIGHT && p.x < WIDTH
  {
  }

  // ---- Any history

  datatype Event =
    | Tick(cycles: Byte)
    | Write(addr: Word, val: Byte)
    | DmaWrite(addr: Word, val: Byte)
    | SetDma(on: bool)

  function After(p: Ppu, e: Event): (p': Ppu)
    requires p.Valid()
    ensures p'.Valid()
  {
    match e
    case Tick(cycles) => Batch(p, cycles).p
    case Write(addr, val) => Written(p, addr, val)
    case DmaWrite(addr, val) => WrittenByDma(p, addr, val)
    case SetDma(on) => p.(dma := on)
  }

  function AfterAll(p: Ppu, events: seq<Event>): (p': Ppu)
    requires p.Valid()
    ensures p'.Valid()
    decreases |events|
  {
    if events == [] then p else AfterAll(After(p, events[0]), events[1..])
  }

  // As the constructors leave it: anything in the memories, and the background switch unset.
  ghost predicate PoweredOn(p: Ppu)
  {
    && p.Valid() && !p.enabled && !p.regs.lcdc.enable && p.Mode() == OamSearch
    && p.pipe.f == p.pipe.f.Reset() && p.pipe.q == EMPTY.(bgEnabled := p.pipe.q.bgEnabled)
  }

  // The pipeline fits together, and the unit runs exactly when LCDC says so.
  ghost predicate Consistent(p: Ppu)
  {
    Inv(p) && (p.enabled <==> p.regs.lcdc.enable)
  }

  lemma {:induction false} BatchKeepsSwitch(p: Ppu, cycles: nat)
    requires p.Valid()
    ensures Batch(p, cycles).p.enabled == p.enabled && Batch(p, cycles).p.regs.lcdc == p.regs.lcdc
    decreases cycles, p.delay
  {
    hide Segment;
    if cycles > 0 && p.enabled {
      var s := Segment(p, cycles);
      SegmentKeepsSwitch(p, cycles);
      BatchKeepsSwitch(s.p, cycles - s.consumed);
    }
  }

  lemma SegmentKeepsSwitch(p: Ppu, cycles: nat)
    requires p.Valid() && cycles > 0
    ensures Segment(p, cycles).p.enabled == p.enabled && Segment(p, cycles).p.regs.lcdc == p.regs.lcdc
  {
    hide XferStretch, FetchTicked, LineObjs;
    if p.Mode() == DataXfer {
      StretchKeepsSwitch(p, cycles);
    }
  }

  lemma {:induction false} StretchKeepsSwitch(p: Ppu, cycles: nat)
    requires p.Valid()
    ensures XferStretch(p, cycles).p.regs.lcdc == p.regs.lcdc
    decreases cycles
  {
    hide XferDot;
    if cycles > 0 && p.Mode() == DataXfer {
      StretchKeepsSwitch(XferDot(p).p, cycles - 1);
    }
  }

  // A write moves nothing in the pipeline, and can leave mode 3 only for mode 2.
  lemma WriteMovesNothing(p: Ppu, addr: Word, val: Byte)
    requires p.Valid()
    ensures var q := Written(p, addr, val);
      && q.pipe == p.pipe && q.x == p.x && q.numObjs == p.numObjs && q.curObj == p.curObj
      && (q.Mode() == p.Mode() || q.Mode() == OamSearch)
      && (q.Mode() == DataXfer ==> q.lineCycles == p.lineCycles)
      && q.regs.scx == (if addr == SCX_ADDR then val else p.regs.scx)
      && (addr == SCX_ADDR ==> q.Mode() == p.Mode())
      && q.found == p.found
      && (addr != LCDC_ADDR ==> q.enabled == p.enabled && q.Mode() == p.Mode() && q.regs.lcdc == p.regs.lcdc)
  {
    hide LcdcOf, Pipe.Valid, Regs.Write;
    RegsWriteKeeps(p.regs, addr, val);
    if addr == LCDC_ADDR {
      RegsWriteKeeps(Switched(p, LcdcOf(val).enable).regs, addr, val);
    }
  }

  lemma RegsWriteKeeps(r: Regs, addr: Word, val: Byte)
    ensures var q := r.Write(addr, val); q.stat.mode == r.stat.mode && q.scx == if addr == SCX_ADDR then val else r.scx
    ensures addr != LCDC_ADDR ==> r.Write(addr, val).lcdc == r.lcdc
  {
    hide LcdcOf;
  }

  lemma WriteKeepsSwitch(p: Ppu, addr: Word, val: Byte)
    requires p.Valid() && (p.enabled <==> p.regs.lcdc.enable)
    ensures var q := Written(p, addr, val); q.enabled <==> q.regs.lcdc.enable
  {
    hide LcdcOf, Pipe.Valid, Regs.OffsetsAgree;
  }

  lemma WriteKeeps(p: Ppu, addr: Word, val: Byte)
    requires Consistent(p)
    ensures Consistent(Written(p, addr, val))
  {
    hide Linked, Written, Ppu.Valid;
    InvIsValid(p);
    WriteMovesNothing(p, addr, val);
    WriteKeepsSwitch(p, addr, val);
  }

  // Whatever is written and whenever, also with the LCD switched off in the middle of a line.
  lemma {:induction false} AlwaysConsistent(p: Ppu, events: seq<Event>)
    requires Consistent(p)
    ensures Consistent(AfterAll(p, events))
    decreases |events|
  {
    if events != [] {
      EventKeeps(p, events[0]);
      AlwaysConsistent(After(p, events[0]), events[1..]);
    }
  }

  lemma EventKeeps(p: Ppu, e: Event)
    requires Consistent(p)
    ensures Consistent(After(p, e))
  {
    hide Batch, Written, Linked;
    match e
    case Tick(cycles) =>
      BatchKeepsInv(p, cycles);
      BatchKeepsSwitch(p, cycles);
    case Write(addr, val) =>
      WriteKeeps(p, addr, val);
    case DmaWrite(addr, val) =>
    case SetDma(on) =>
  }

  lemma FromPowerOn(p: Ppu, events: seq<Event>)
    requires PoweredOn(p)
    ensures Consistent(AfterAll(p, events))
  {
    AlwaysConsistent(p, events);
  }
}
