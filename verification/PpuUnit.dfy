/** The picture unit as the object it is: fields, arrays and three parts that share them. */
module PpuUnit {
  import opened Bytes
  import opened Pixels
  import opened Registers
  import opened PixelFifo
  import opened Oam
  import opened Fetch
  import opened Interrupts
  import opened Outputs
  import PpuCore

  class Ppu {
    const mVRAM: array<Byte>
    const mOAM: array<Byte>
    const mRegs: PpuRegisters
    const mIC: InterruptController
    const mFoundObjs: array<OamEntry>
    const frameBuf: array2<Byte>
    const mFetcher: Fetcher
    const mFIFO: PixelFIFO
    var mLineCycles: nat
    var mEnabled: bool
    var mNumObjs: nat
    var mCurObj: nat
    var mCurWinY: Byte
    var mLineXPos: int
    var mMode3DelayCycles: nat
    var mOAMDMAInProgress: bool

    // The parts share one set of registers, one queue and the memories of this unit.
    ghost predicate Wired()
      reads this
    {
      && mFetcher.mFIFO == mFIFO && mFetcher.mRegs == mRegs && mFIFO.mRegs == mRegs
      && mFetcher.mVRAM == mVRAM && mFetcher.mFoundObjs == mFoundObjs
      && mVRAM.Length == VRAM_SIZE && mOAM.Length == OAM_SIZE && mFoundObjs.Length == MAX_NUM_OBJS
      && frameBuf.Length0 == HEIGHT && frameBuf.Length1 == WIDTH
    }

    ghost predicate Ready()
      reads this, mFetcher, mFIFO
    {
      Wired() && mFetcher.Valid()
    }

    ghost function Model(): PpuCore.Ppu
      requires Ready()
      reads this, mRegs, mVRAM, mOAM, mFoundObjs, mFetcher, mFIFO, mFIFO.mBGPixs, mFIFO.mOBJPixs
    {
      PpuCore.Ppu(mRegs.Model(), mVRAM[..], mOAM[..], mEnabled, mOAMDMAInProgress, mLineCycles, mNumObjs, mCurObj,
                  mFoundObjs[..], mCurWinY, mFetcher.Model(), mLineXPos, mMode3DelayCycles)
    }

    ghost predicate Valid()
      reads this, mRegs, mVRAM, mOAM, mFoundObjs, mFetcher, mFIFO, mFIFO.mBGPixs, mFIFO.mOBJPixs
    {
      Ready() && Model().Valid()
    }

    // The frame buffer as a value.
    ghost function Frame(): (f: seq<seq<Byte>>)
      requires frameBuf.Length0 == HEIGHT && frameBuf.Length1 == WIDTH
      reads frameBuf
      ensures |f| == HEIGHT && forall y :: 0 <= y < HEIGHT ==> |f[y]| == WIDTH
    {
      seq(HEIGHT, y requires 0 <= y < HEIGHT reads frameBuf =>
        seq(WIDTH, x requires 0 <= x < WIDTH reads frameBuf => frameBuf[y, x]))
    }

    // The object counters, the column and the delay, which the original leaves unset until the
    // first search, start at zero here.
    constructor (ic: InterruptController)
      ensures Valid() && mIC == ic && mIC.Model() == old(ic.Model())
      ensures Model().regs == POWER_ON.(stat := POWER_ON.stat.(mode := OamSearch))
      ensures !mEnabled && mLineCycles == 0 && mCurWinY == 0 && !mOAMDMAInProgress
      ensures Model().pipe.f == Model().pipe.f.Reset()
      ensures Model().pipe.q == EMPTY.(bgEnabled := Model().pipe.q.bgEnabled)
    {
      mIC := ic;
      mEnabled, mCurWinY, mLineCycles, mOAMDMAInProgress := false, 0, 0, false;
      mNumObjs, mCurObj, mLineXPos, mMode3DelayCycles := 0, 0, 0, 0;
      var vram, oam := new Byte[VRAM_SIZE], new Byte[OAM_SIZE];
      var found := new OamEntry[MAX_NUM_OBJS](_ => NO_ENTRY);
      var regs := new PpuRegisters();
      var fifo := new PixelFIFO(regs);
      var fetcher := new Fetcher(fifo, vram, found, regs);
      mVRAM, mOAM, mFoundObjs, mRegs, mFIFO, mFetcher := vram, oam, found, regs, fifo, fetcher;
      frameBuf := new Byte[HEIGHT, WIDTH];
      new;
      hide Ring, Fifo.Valid, FetchState.Valid, FetchState.Reset, PpuCore.Ppu.Valid, Regs.OffsetsAgree;
      mRegs.STAT := mRegs.STAT.(mode := OamSearch);
      FreshIsValid(Model());
    }

    // Output `o`, done to a frame buffer and interrupt lines that were as given.
    ghost predicate Did(o: seq<Output>, frame: FrameImage, lines: Lines)
      requires frameBuf.Length0 == HEIGHT && frameBuf.Length1 == WIDTH && IsFrame(frame)
      reads frameBuf, mIC
    {
      Shown(o, frame, Frame()) && mIC.Model() == Requested(o, lines)
    }

    method SetMode(mode: Mode)
      requires Ready()
      modifies mRegs`STAT, mIC`mIF
      ensures Ready() && Model() == PpuCore.WithMode(old(Model()), mode)
      ensures mIC.Model() == Requested(PpuCore.ModeRequests(mEnabled, old(mRegs.STAT), mode), old(mIC.Model()))
    {
      ghost var first := if mode == VBlank then [Irq(ItVBlank)] else [];
      ghost var second := if mEnabled && PpuCore.ModeIrq(mRegs.STAT, mode) then [Irq(ItLcdcStatus)] else [];
      RequestedAppend(first, second, mIC.Model());
      OneRequest(ItVBlank, mIC.Model());
      OneRequest(ItLcdcStatus, Requested(first, mIC.Model()));
      mRegs.STAT := mRegs.STAT.(mode := mode);
      if mode == VBlank {
        mIC.RequestInterrupt(ItVBlank);
      }
      if mEnabled && mode != DataXfer && PpuCore.ModeIrq(mRegs.STAT, mode) {
        mIC.RequestInterrupt(ItLcdcStatus);
      }
    }

    method SetLine(line: Byte)
      requires Ready()
      modifies mRegs`STAT, mRegs`LY, mIC`mIF
      ensures Ready()
      ensures Model() == old(Model()).(regs := old(Model()).regs.(ly := line,
                stat := old(mRegs.STAT).(coincidence := line == mRegs.LYC)))
      ensures mIC.Model() == Requested(PpuCore.LineRequests(old(mRegs.Model()), line), old(mIC.Model()))
    {
      OneRequest(ItLcdcStatus, mIC.Model());
      mRegs.LY := line;
      if mRegs.LY == mRegs.LYC {
        mRegs.STAT := mRegs.STAT.(coincidence := true);
        if mRegs.STAT.coincidenceIrq {
          mIC.RequestInterrupt(ItLcdcStatus);
        }
      } else {
        mRegs.STAT := mRegs.STAT.(coincidence := false);
      }
    }

    method FindObjects()
      requires Wired()
      modifies this`mNumObjs, mFoundObjs
      ensures var objs := LineObjs(mOAM[..], mRegs.LY, mRegs.LCDC.tallObjs);
        mNumObjs == |objs| && mFoundObjs[..] == objs + old(mFoundObjs[..])[|objs|..]
    {
      mNumObjs := SearchOam(mOAM, mRegs.LY, mRegs.LCDC.tallObjs, mFoundObjs);
      ghost var found := FirstTen(OnLine(mOAM[..], mRegs.LY, mRegs.LCDC.tallObjs, 0));
      assert mFoundObjs[..mNumObjs] == found;
      SortFound(mFoundObjs, mNumObjs);
    }

    // The end of mode 2.
    method StartTransfer()
      requires Valid() && Model().Mode() == OamSearch
      modifies this, mRegs, mFoundObjs, mIC
      ensures Valid() && Model() == PpuCore.StartTransfer(old(Model()))
      ensures mIC.Model() == old(mIC.Model())
    {
      hide LineObjs, Ring, Pipe.Valid, FetchState.Valid;
      FindObjects();
      mCurObj := 0;
      SetMode(DataXfer);
      mLineXPos := -8;
      mMode3DelayCycles := mRegs.SCX % 8;
    }

    method TickFetcher()
      requires Valid()
      modifies mFetcher, mFIFO, mFIFO.mBGPixs, mFIFO.mOBJPixs
      ensures Valid() && Model() == PpuCore.FetchTicked(old(Model()))
    {
      mFetcher.Tick();
    }

    method StartObject()
      requires Valid() && mCurObj < mNumObjs
      modifies this`mCurObj, mFetcher, mFIFO
      ensures Valid() && Model() == PpuCore.StartObject(old(Model()))
    {
      mFetcher.StartSprite(mCurObj);
      mFIFO.Lock();
      mCurObj := mCurObj + 1;
    }

    method WriteFrame(pix: Shade)
      requires Wired() && 0 <= mLineXPos < WIDTH && mRegs.LY < HEIGHT
      modifies frameBuf
      ensures Did([Draw(mRegs.LY, mLineXPos, PpuCore.Level(pix))], old(Frame()), old(mIC.Model()))
    {
      ghost var d := Draw(mRegs.LY, mLineXPos, PpuCore.Level(pix));
      frameBuf[mRegs.LY, mLineXPos] := PpuCore.Level(pix);
      ShownOneDraw(d, old(Frame()), Frame());
      OneDrawRequestsNothing(d, mIC.Model());
    }

    // One pixel out of the queues and onto the screen.
    method TakePixel()
      requires Valid() && Model().Mode() == DataXfer && !PpuCore.Stalled(Model())
      modifies this`mLineXPos, mFIFO, frameBuf
      ensures Ready() && Model() == PpuCore.PixelTaken(old(Model()))
      ensures Did(PpuCore.Drawn(old(Model())), old(Frame()), old(mIC.Model()))
    {
      hide Ring, Fifo.Popped, Mixed, Pipe.Valid, FetchState.Valid, PpuCore.Level;
      ShownOnlyRequests([], Frame());
      var pix := mFIFO.Tick();
      if mLineXPos >= 0 {
        assert pix != INVALID_PIX;
        WriteFrame(pix);
      }
      mLineXPos := mLineXPos + 1;
      if mLineXPos == -(mRegs.SCX % 8) {
        mFIFO.EnableBG(true);
      }
    }

    method ResetPipe()
      requires Ready()
      modifies mFetcher, mFIFO
      ensures Ready() && Model() == old(Model()).(pipe := Pipe(old(Model()).pipe.f.Reset(), EMPTY))
    {
      mFetcher.Reset();
      mFIFO.Reset();
    }

    lemma RequestsOnlyShow(o: seq<Output>, l: Lines)
      requires frameBuf.Length0 == HEIGHT && frameBuf.Length1 == WIDTH && OnlyRequests(o)
      requires mIC.Model() == Requested(o, l)
      ensures Did(o, Frame(), l)
    {
      ShownOnlyRequests(o, Frame());
    }

    method CountWindowRow()
      requires Ready()
      modifies this`mCurWinY
      ensures Ready()
      ensures Model() == (var p := old(Model());
                          var shown := p.regs.lcdc.winOn && p.regs.ly >= p.regs.wy;
                          p.(winY := if shown then (p.winY + 1) % 0x100 else p.winY))
    {
      if mRegs.LCDC.winOn && mRegs.LY >= mRegs.WY {
        mCurWinY := (mCurWinY + 1) % 0x100;
      }
    }

    method FinishLine()
      requires Ready() && Model().(x := 0).Valid() && Model().Mode() == DataXfer
      modifies this`mCurWinY, mRegs`STAT, mIC`mIF, mFetcher, mFIFO
      ensures Valid() && Model() == PpuCore.LineDone(old(Model()))
      ensures Did(PpuCore.ModeRequests(mEnabled, old(mRegs.STAT), HBlank), old(Frame()), old(mIC.Model()))
    {
      hide Ring, Requested, Shown, FetchState.Reset, PpuCore.ModeRequests, PpuCore.Ppu.Valid;
      ModeOnlyRequests(mEnabled, mRegs.STAT, HBlank);
      SetMode(HBlank);
      ResetPipe();
      CountWindowRow();
      assert Model() == PpuCore.LineDone(old(Model()));
      RequestsOnlyShow(PpuCore.ModeRequests(mEnabled, old(mRegs.STAT), HBlank), old(mIC.Model()));
    }

    lemma Then(a: seq<Output>, b: seq<Output>, f: FrameImage, g: FrameImage, l: Lines, m: Lines)
      requires frameBuf.Length0 == HEIGHT && frameBuf.Length1 == WIDTH && IsFrame(f) && IsFrame(g)
      requires Shown(a, f, g) && m == Requested(a, l) && Did(b, g, m)
      ensures Did(a + b, f, l)
    {
      ShownAppend(a, b, f, g, Frame());
      RequestedAppend(a, b, l);
    }

    // One pixel out, and the end of the line when it was the last.
    method Shift()
      requires Valid() && Model().Mode() == DataXfer && !PpuCore.Stalled(Model())
      modifies this, mRegs`STAT, mIC`mIF, mFetcher, mFIFO, frameBuf
      ensures Valid() && Model() == PpuCore.Shifted(old(Model())).p
      ensures Did(PpuCore.Shifted(old(Model())).o, old(Frame()), old(mIC.Model()))
    {
      hide PpuCore.PixelTaken, PpuCore.Drawn, PpuCore.LineDone, PpuCore.ModeRequests, Shown, Requested, Ring,
           Pipe.Valid, FetchState.Valid;
      TakePixel();
      ghost var frame, lines := Frame(), mIC.Model();
      if mLineXPos == 160 {
        FinishLine();
        Then(PpuCore.Drawn(old(Model())), PpuCore.ModeRequests(mEnabled, old(mRegs.STAT), HBlank),
             old(Frame()), frame, old(mIC.Model()), lines);
      }
    }

    method StartWindow()
      requires Valid()
      modifies mFetcher, mFIFO
      ensures Valid() && Model() == PpuCore.StartWindow(old(Model()))
    {
      mFetcher.SetMode(FmWindow, mCurWinY);
      mFIFO.Clear(false);
    }

    // The second half of a dot: start the window, lose the dot, or let a pixel go.
    method WindowAndShift()
      requires Valid() && Model().Mode() == DataXfer
      modifies this, mRegs`STAT, mIC`mIF, mFetcher, mFIFO, frameBuf
      ensures Valid() && Model() == PpuCore.WindowAndShift(old(Model())).p
      ensures Did(PpuCore.WindowAndShift(old(Model())).o, old(Frame()), old(mIC.Model()))
    {
      hide PpuCore.StartWindow, PpuCore.Shifted, Ring, Pipe.Valid, FetchState.Valid, Shown, Requested;
      NothingDone();
      if mRegs.LCDC.winOn && mLineXPos >= mRegs.WX - 7 && mRegs.LY >= mRegs.WY && mFetcher.mMode != FmWindow {
        StartWindow();
        NothingDone();
        return;
      }
      if mFIFO.mLocked || (mFIFO.mBGCount == 0 && mLineXPos >= 0) {
        return;
      }
      Shift();
    }

    lemma NothingDone()
      requires frameBuf.Length0 == HEIGHT && frameBuf.Length1 == WIDTH
      ensures Did([], Frame(), mIC.Model())
    {
      ShownOnlyRequests([], Frame());
    }

    method IsObjectDue() returns (due: bool)
      requires Valid()
      ensures due == PpuCore.ObjectDue(Model()) && (due ==> mCurObj < mNumObjs)
    {
      due := mRegs.LCDC.objOn && mCurObj < mNumObjs && mFoundObjs[mCurObj].x == mLineXPos + 8;
    }

    // One dot of pixel transfer.
    method XferDot()
      requires Valid() && Model().Mode() == DataXfer
      modifies this, mRegs`STAT, mIC`mIF, mFetcher, mFIFO, mFIFO.mBGPixs, mFIFO.mOBJPixs, frameBuf
      ensures Valid() && Model() == PpuCore.XferDot(old(Model())).p
      ensures Did(PpuCore.XferDot(old(Model())).o, old(Frame()), old(mIC.Model()))
    {
      hide PpuCore.WindowAndShift, PpuCore.FetchTicked, PpuCore.StartObject, PpuCore.ObjectDue, PpuCore.Ppu.Valid,
           PpuCore.StaysInLine, Ring, Shown, Requested;
      NothingDone();
      if mFetcher.mSprite != None {
        TickFetcher();
        var another := IsObjectDue();
        if mFetcher.mSprite == None && another {
          StartObject();
          NothingDone();
          return;
        }
      } else {
        var due := IsObjectDue();
        if due {
          StartObject();
        }
        TickFetcher();
      }
      WindowAndShift();
    }

    // The for loop of mode 3.
    method TransferStretch(cycles: nat) returns (consumed: nat)
      requires Valid() && Model().Mode() == DataXfer
      modifies this, mRegs`STAT, mIC`mIF, mFetcher, mFIFO, mFIFO.mBGPixs, mFIFO.mOBJPixs, frameBuf
      ensures Valid()
      ensures var s := PpuCore.XferStretch(old(Model()), cycles);
        Model() == s.p && consumed == s.consumed && Did(s.o, old(Frame()), old(mIC.Model()))
    {
      hide PpuCore.XferDot, Ring, Pipe.Valid, FetchState.Valid, Shown, Requested, PpuCore.Ppu.Valid;
      ghost var outs := [];
      ghost var start := Model();
      NothingDone();
      consumed := 0;
      while consumed < cycles && mRegs.STAT.mode == DataXfer
        invariant Valid() && consumed <= cycles
        invariant Did(outs, old(Frame()), old(mIC.Model()))
        invariant var s := PpuCore.XferStretch(Model(), cycles - consumed);
          PpuCore.XferStretch(start, cycles) == PpuCore.Stretch(s.p, consumed + s.consumed, outs + s.o)
        decreases cycles - consumed
      {
        ghost var p, frame, lines := Model(), Frame(), mIC.Model();
        XferDot();
        ghost var o := PpuCore.XferDot(p).o;
        Then(outs, o, old(Frame()), frame, old(mIC.Model()), lines);
        OutputRegroup(outs, o, PpuCore.XferStretch(Model(), cycles - consumed - 1).o);
        outs := outs + o;
        consumed := consumed + 1;
      }
      assert outs + [] == outs;
    }

    // Change the mode and move to a line, in that order.
    method EnterLine(mode: Mode, line: Byte)
      requires Ready()
      modifies mRegs`STAT, mRegs`LY, mIC`mIF
      ensures Ready()
      ensures Model() == old(Model()).(regs := old(Model()).regs.(ly := line,
                stat := old(mRegs.STAT).(mode := mode, coincidence := line == mRegs.LYC)))
      ensures mIC.Model() == Requested(PpuCore.ModeRequests(mEnabled, old(mRegs.STAT), mode)
                                       + PpuCore.LineRequests(old(mRegs.Model()), line), old(mIC.Model()))
    {
      hide Requested, PpuCore.ModeRequests, Ring;
      RequestedAppend(PpuCore.ModeRequests(mEnabled, mRegs.STAT, mode),
                      PpuCore.LineRequests(mRegs.Model(), line), mIC.Model());
      SetMode(mode);
      SetLine(line);
    }

    // The end of a line of blanking.
    method EndLine()
      requires Valid() && PpuCore.Blanking(mRegs.Model())
      modifies this`mCurWinY, mRegs`STAT, mRegs`LY, mIC`mIF
      ensures Ready() && Model() == PpuCore.EndOfLine(old(Model())).p
      ensures Did(PpuCore.EndOfLine(old(Model())).o, old(Frame()), old(mIC.Model()))
    {
      hide Requested, PpuCore.ModeRequests, PpuCore.LineRequests, Ring, Shown, Pipe.Valid, FetchState.Valid;
      EndOnlyRequests(mEnabled, mRegs.Model());
      assert PpuCore.EndOfLine(Model()).o == EndRequests(mEnabled, mRegs.Model());
      if mRegs.STAT.mode == HBlank {
        if mRegs.LY < 143 {
          EnterLine(OamSearch, mRegs.LY + 1);
        } else if mRegs.LY == 143 {
          EnterLine(VBlank, mRegs.LY + 1);
        }
      } else {
        if mRegs.LY < 153 {
          assert EndRequests(mEnabled, mRegs.Model()) == PpuCore.LineRequests(mRegs.Model(), mRegs.LY + 1);
          SetLine(mRegs.LY + 1);
        } else {
          mCurWinY := 0;
          EnterLine(OamSearch, 0);
        }
      }
      RequestsOnlyShow(EndRequests(mEnabled, old(mRegs.Model())), old(mIC.Model()));
    }

    // Count the cycles spent; a full line starts over.
    method SpendCycles(consumed: nat)
      requires Ready()
      modifies this`mLineCycles
      ensures Ready() && Model() == PpuCore.Advanced(old(Model()), consumed)
    {
      mLineCycles := mLineCycles + consumed;
      if mLineCycles >= PpuCore.LINE_CYCLES {
        mLineCycles := 0;
      }
    }

    // Mode 2 of the switch in tick.
    method PassSearch(cycles: nat) returns (consumed: nat)
      requires Valid() && Model().Mode() == OamSearch && cycles > 0
      modifies this, mRegs, mFoundObjs, mIC
      ensures Valid()
      ensures var s := PpuCore.SearchSegment(old(Model()), cycles);
        Model() == s.p && consumed == s.consumed && Did(s.o, old(Frame()), old(mIC.Model()))
    {
      hide PpuCore.StartTransfer, Ring, Shown, Requested, Pipe.Valid, FetchState.Valid;
      NothingDone();
      consumed := cycles;
      if mLineCycles + cycles >= PpuCore.OAM_CYCLES {
        StartTransfer();
        consumed := PpuCore.OAM_CYCLES - mLineCycles;
      }
      SpendCycles(consumed);
      NothingDone();
    }

    // Mode 3: a delay tick, which costs nothing, or a stretch of dots.
    method PassTransfer(cycles: nat) returns (consumed: nat)
      requires Valid() && Model().Mode() == DataXfer && cycles > 0
      modifies this, mRegs`STAT, mIC`mIF, mFetcher, mFIFO, mFIFO.mBGPixs, mFIFO.mOBJPixs, frameBuf
      ensures Valid()
      ensures var s := PpuCore.XferSegment(old(Model()), cycles);
        Model() == s.p && consumed == s.consumed && Did(s.o, old(Frame()), old(mIC.Model()))
    {
      hide PpuCore.FetchTicked, PpuCore.XferStretch, Ring, Shown, Requested, Pipe.Valid,
           Regs.OffsetsAgree;
      NothingDone();
      if mMode3DelayCycles > 0 {
        mMode3DelayCycles := mMode3DelayCycles - 1;
        TickFetcher();
        NothingDone();
        return 0;
      }
      consumed := TransferStretch(cycles);
      SpendCycles(consumed);
    }

    // Modes 0 and 1.
    method PassBlank(cycles: nat) returns (consumed: nat)
      requires Valid() && PpuCore.Blanking(mRegs.Model()) && cycles > 0
      modifies this, mRegs`STAT, mRegs`LY, mIC`mIF
      ensures Valid()
      ensures var s := PpuCore.BlankSegment(old(Model()), cycles);
        Model() == s.p && consumed == s.consumed && Did(s.o, old(Frame()), old(mIC.Model()))
    {
      hide PpuCore.EndOfLine, Ring, Shown, Requested, Pipe.Valid, FetchState.Valid;
      NothingDone();
      consumed := cycles;
      if mLineCycles + cycles >= PpuCore.LINE_CYCLES {
        consumed := PpuCore.LINE_CYCLES - mLineCycles;
        EndLine();
      }
      SpendCycles(consumed);
    }

    // One pass of the while loop in tick.
    method Pass(cycles: nat) returns (consumed: nat)
      requires Valid() && cycles > 0
      modifies this, mRegs, mFoundObjs, mIC, mFetcher, mFIFO, mFIFO.mBGPixs, mFIFO.mOBJPixs, frameBuf
      ensures Valid()
      ensures var s := PpuCore.Segment(old(Model()), cycles);
        Model() == s.p && consumed == s.consumed && Did(s.o, old(Frame()), old(mIC.Model()))
      ensures mEnabled == old(mEnabled)
    {
      hide PpuCore.SearchSegment, PpuCore.XferSegment, PpuCore.BlankSegment, Ring, Shown, Requested, Pipe.Valid,
           FetchState.Valid;
      SegmentKeepsEnabled(Model(), cycles);
      if mRegs.STAT.mode == OamSearch {
        consumed := PassSearch(cycles);
      } else if mRegs.STAT.mode == DataXfer {
        consumed := PassTransfer(cycles);
      } else {
        consumed := PassBlank(cycles);
      }
    }

    method Tick(elapsed: Byte)
      requires Valid()
      modifies this, mRegs, mFoundObjs, mIC, mFetcher, mFIFO, mFIFO.mBGPixs, mFIFO.mOBJPixs, frameBuf
      ensures Valid() && Model() == PpuCore.Batch(old(Model()), elapsed).p
      ensures Did(PpuCore.Batch(old(Model()), elapsed).o, old(Frame()), old(mIC.Model()))
    {
      hide PpuCore.Segment, Ring, Shown, Requested, Pipe.Valid, FetchState.Valid;
      NothingDone();
      if !mEnabled {
        return;
      }
      var cycles: nat := elapsed;
      ghost var start, outs := Model(), [];
      while cycles > 0
        invariant Valid() && mEnabled
        invariant Did(outs, old(Frame()), old(mIC.Model()))
        invariant var r := PpuCore.Batch(Model(), cycles);
          PpuCore.Batch(start, elapsed) == PpuCore.Out(r.p, outs + r.o)
        decreases cycles, mMode3DelayCycles
      {
        ghost var p, frame, lines := Model(), Frame(), mIC.Model();
        var consumed := Pass(cycles);
        ghost var o := PpuCore.Segment(p, cycles).o;
        Then(outs, o, old(Frame()), frame, old(mIC.Model()), lines);
        OutputRegroup(outs, o, PpuCore.Batch(Model(), cycles - consumed).o);
        outs := outs + o;
        cycles := cycles - consumed;
      }
      assert outs + [] == outs;
    }

    // The LCD switch, on a write to LCDC.
    method SwitchLcd(enable: bool)
      requires Valid()
      modifies this, mRegs, mIC
      ensures Valid() && Model() == PpuCore.Switched(old(Model()), enable)
      ensures mIC.Model() == old(mIC.Model())
    {
      hide Ring, Pipe.Valid, FetchState.Valid;
      if enable != mRegs.LCDC.enable {
        if enable {
          mEnabled := true;
        } else {
          mRegs.LY := 0;
          mCurWinY := 0;
          mEnabled := false;
          assert PpuCore.ModeRequests(false, mRegs.STAT, OamSearch) == [];
          SetMode(OamSearch);
          mLineCycles := 0;
        }
      }
    }

    method WriteVram(at: nat, val: Byte)
      requires Valid() && at < VRAM_SIZE
      modifies mVRAM
      ensures Valid() && Model() == old(Model()).(vram := old(Model()).vram[at := val])
    {
      mVRAM[at] := val;
    }

    method WriteOam(at: nat, val: Byte)
      requires Valid() && at < OAM_SIZE
      modifies mOAM
      ensures Valid() && Model() == old(Model()).(oam := old(Model()).oam[at := val])
    {
      mOAM[at] := val;
    }

    method WriteRegister(addr: Word, val: Byte)
      requires Valid() && addr >= 0xFF00
      modifies this, mRegs, mIC
      ensures Valid() && Model() == PpuCore.Written(old(Model()), addr, val)
      ensures mIC.Model() == old(mIC.Model())
    {
      hide Ring, Pipe.Valid, FetchState.Valid, PpuCore.Switched, LcdcOf, Regs.Write, PpuCore.Ppu.Valid;
      if addr == LCDC_ADDR {
        SwitchLcd(LcdcOf(val).enable);
      }
      mRegs.Write(addr, val);
      assert Model() == PpuCore.Written(old(Model()), addr, val);
    }

    method WriteAddr(addr: Word, val: Byte)
      requires Valid()
      modifies this, mRegs, mIC, mVRAM, mOAM
      ensures Valid() && Model() == PpuCore.Written(old(Model()), addr, val)
      ensures mIC.Model() == old(mIC.Model())
    {
      hide Ring, Pipe.Valid, FetchState.Valid, PpuCore.Switched, Regs.Write;
      if PpuCore.VRAM_BASE <= addr < PpuCore.VRAM_BASE + VRAM_SIZE {
        if !mEnabled || mRegs.STAT.mode != DataXfer {
          WriteVram(addr - PpuCore.VRAM_BASE, val);
        }
      } else if addr >= 0xFF00 {
        WriteRegister(addr, val);
      } else if PpuCore.OAM_BASE <= addr < PpuCore.OAM_TOP {
        if !mEnabled || mOAMDMAInProgress || mRegs.STAT.mode == HBlank || mRegs.STAT.mode == VBlank {
          WriteOam(addr - PpuCore.OAM_BASE, val);
        }
      }
    }

    // StartOAMDMA and stopOAMDMA
    method SetOAMDMA(on: bool)
      requires Valid()
      modifies this`mOAMDMAInProgress
      ensures Valid() && Model() == old(Model()).(dma := on)
    {
      mOAMDMAInProgress := on;
    }

    method WriteAddrDMA(addr: Word, val: Byte)
      requires Valid()
      modifies mOAM
      ensures Valid() && Model() == PpuCore.WrittenByDma(old(Model()), addr, val)
    {
      if PpuCore.OAM_BASE <= addr < PpuCore.OAM_TOP {
        mOAM[addr - PpuCore.OAM_BASE] := val;
      }
    }
  }

  lemma FreshIsValid(p: PpuCore.Ppu)
    requires p.regs == POWER_ON.(stat := POWER_ON.stat.(mode := OamSearch))
    requires |p.vram| == VRAM_SIZE && |p.oam| == OAM_SIZE && |p.found| == MAX_NUM_OBJS && p.pipe.Valid()
    requires p.curObj == p.numObjs == p.lineCycles == p.delay == 0
    ensures p.Valid()
  {
  }

  ghost function EndRequests(enabled: bool, r: Regs): seq<Output>
    requires PpuCore.Blanking(r)
  {
    (if PpuCore.NextMode(r) != r.stat.mode then PpuCore.ModeRequests(enabled, r.stat, PpuCore.NextMode(r)) else [])
    + PpuCore.LineRequests(r, PpuCore.NextLine(r))
  }

  lemma ModeOnlyRequests(enabled: bool, s: Stat, mode: Mode)
    ensures OnlyRequests(PpuCore.ModeRequests(enabled, s, mode))
  {
  }

  lemma EndOnlyRequests(enabled: bool, r: Regs)
    requires PpuCore.Blanking(r)
    ensures OnlyRequests(EndRequests(enabled, r))
  {
  }

  lemma SegmentKeepsEnabled(p: PpuCore.Ppu, cycles: nat)
    requires p.Valid() && cycles > 0
    ensures PpuCore.Segment(p, cycles).p.enabled == p.enabled
  {
  }
}
