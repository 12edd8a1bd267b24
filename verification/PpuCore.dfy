/** The picture unit as a state machine: what one batch of cycles does, and what one dot does. */
module PpuCore {
  import opened Bytes
  import opened Pixels
  import opened Registers
  import opened PixelFifo
  import opened Oam
  import opened Fetch
  import opened Interrupts
  import opened Outputs

  const OAM_CYCLES := 80
  const LINE_CYCLES := 456
  const LAST_LINE := 153
  datatype Ppu = Ppu(regs: Regs, vram: seq<Byte>, oam: seq<Byte>, enabled: bool, dma: bool,
                     lineCycles: nat, numObjs: nat, curObj: nat, found: seq<OamEntry>, winY: Byte,
                     pipe: Pipe, x: int, delay: nat) {

    function Scene(): Scene
    {
      Fetch.Scene(regs, vram, found)
    }

    function Mode(): Mode
    {
      regs.stat.mode
    }

    // Sizes, ranges and cached offsets: everything needed for a tick to be defined.
    predicate Valid()
    {
      && regs.OffsetsAgree()
      && |vram| == VRAM_SIZE && |oam| == OAM_SIZE && |found| == MAX_NUM_OBJS
      && curObj <= numObjs <= MAX_NUM_OBJS
      && pipe.Valid()
      && (if Mode() == VBlank then HEIGHT <= regs.ly <= LAST_LINE else regs.ly < HEIGHT)
      && (Mode() == DataXfer ==> -8 <= x < WIDTH)
      && lineCycles < (if Mode() == OamSearch then OAM_CYCLES else LINE_CYCLES)
      && delay <= 7
    }
  }

  datatype Out = Out(p: Ppu, o: seq<Output>)

  function Level(s: Shade): Byte
  {
    match s
    case 0 => 255
    case 1 => 169
    case 2 => 84
    case 3 => 0
  }

  // ---- Mode and line changes

  function ModeIrq(s: Stat, mode: Mode): bool
  {
    match mode
    case HBlank => s.hblankIrq
    case VBlank => s.vblankIrq
    case OamSearch => s.oamIrq
    case DataXfer => false
  }

  function ModeRequests(enabled: bool, s: Stat, mode: Mode): seq<Output>
  {
    (if mode == VBlank then [Irq(ItVBlank)] else [])
    + (if enabled && ModeIrq(s, mode) then [Irq(ItLcdcStatus)] else [])
  }

  function WithMode(p: Ppu, mode: Mode): Ppu
  {
    p.(regs := p.regs.(stat := p.regs.stat.(mode := mode)))
  }

  function LineRequests(r: Regs, line: Byte): seq<Output>
  {
    if line == r.lyc && r.stat.coincidenceIrq then [Irq(ItLcdcStatus)] else []
  }

  // ---- Mode 2: the object list

  function StartTransfer(p: Ppu): (p': Ppu)
    requires p.Valid() && p.Mode() == OamSearch
    ensures p'.Valid() && p'.Mode() == DataXfer && p'.lineCycles == p.lineCycles
  {
    var objs := LineObjs(p.oam, p.regs.ly, p.regs.lcdc.tallObjs);
    WithMode(p, DataXfer).(numObjs := |objs|, curObj := 0, found := objs + p.found[|objs|..],
                           x := -8, delay := p.regs.scx % 8)
  }

  // ---- Mode 3: one dot of pixel transfer

  function FetchTicked(p: Ppu): (p': Ppu)
    requires p.Valid()
    ensures p'.Valid() && p' == p.(pipe := p'.pipe)
  {
    p.(pipe := Fetch.Ticked(p.pipe, p.Scene()))
  }

  // The next object of the line is due at this column.
  predicate ObjectDue(p: Ppu)
    requires p.Valid()
  {
    p.regs.lcdc.objOn && p.curObj < p.numObjs && p.found[p.curObj].x == p.x + 8
  }

  function StartObject(p: Ppu): (p': Ppu)
    requires p.Valid() && p.curObj < p.numObjs
    ensures p'.Valid() && p' == p.(pipe := p'.pipe, curObj := p.curObj + 1)
  {
    p.(pipe := Pipe(p.pipe.f.StartSprite(p.curObj), p.pipe.q.(locked := true)), curObj := p.curObj + 1)
  }

  predicate WindowDue(p: Ppu)
  {
    p.regs.lcdc.winOn && p.x >= p.regs.wx - 7 && p.regs.ly >= p.regs.wy && p.pipe.f.mode != FmWindow
  }

  function StartWindow(p: Ppu): (p': Ppu)
    requires p.Valid()
    ensures p'.Valid() && p' == p.(pipe := p'.pipe)
  {
    p.(pipe := Pipe(p.pipe.f.StartWindow(p.winY), p.pipe.q.Clear(false)))
  }

  predicate Stalled(p: Ppu)
  {
    p.pipe.q.locked || (p.pipe.q.bg == [] && p.x >= 0)
  }

  // A dot of mode 3 ends in mode 3 or in horizontal blanking, and moves neither the line nor the clock.
  predicate StaysInLine(p: Ppu, p': Ppu)
  {
    && p'.Valid()
    && (p'.Mode() == DataXfer || p'.Mode() == HBlank)
    && p'.lineCycles == p.lineCycles && p'.delay == p.delay && p'.enabled == p.enabled
    && p'.regs == p.regs.(stat := p.regs.stat.(mode := p'.Mode()))
    && p'.vram == p.vram && p'.oam == p.oam && p'.found == p.found && p'.numObjs == p.numObjs
  }

  // One pixel leaves the queues, and the column that matches the scroll switches the background on.
  function PixelTaken(p: Ppu): (p': Ppu)
    requires p.Valid() && p.Mode() == DataXfer
    ensures p'.pipe.Valid() && p' == p.(x := p.x + 1, pipe := p'.pipe)
  {
    var q := p.pipe.q.Popped(p.regs);
    p.(x := p.x + 1,
       pipe := p.pipe.(q := if p.x + 1 == -(p.regs.scx % 8) then q.(bgEnabled := true) else q))
  }

  function Drawn(p: Ppu): seq<Output>
    requires p.Valid() && p.Mode() == DataXfer && !Stalled(p)
  {
    if p.x >= 0 then [Draw(p.regs.ly, p.x, Level(p.pipe.q.Output(p.regs)))] else []
  }

  function LineDone(p: Ppu): (p': Ppu)
    requires p.(x := 0).Valid() && p.Mode() == DataXfer
    ensures StaysInLine(p, p') && p'.Mode() == HBlank
  {
    WithMode(p, HBlank).(pipe := Pipe(p.pipe.f.Reset(), EMPTY),
                         winY := if p.regs.lcdc.winOn && p.regs.ly >= p.regs.wy then (p.winY + 1) % 0x100 else p.winY)
  }

  function Shifted(p: Ppu): (r: Out)
    requires p.Valid() && p.Mode() == DataXfer && !Stalled(p)
    ensures StaysInLine(p, r.p)
  {
    var p1 := PixelTaken(p);
    if p1.x == WIDTH then Out(LineDone(p1), Drawn(p) + ModeRequests(p.enabled, p.regs.stat, HBlank))
    else Out(p1, Drawn(p))
  }

  function WindowAndShift(p: Ppu): (r: Out)
    requires p.Valid() && p.Mode() == DataXfer
    ensures StaysInLine(p, r.p)
  {
    if WindowDue(p) then Out(StartWindow(p), [])
    else if Stalled(p) then Out(p, [])
    else Shifted(p)
  }

  // The object that starts before the fetcher is ticked, if one is due.
  function ObjectStarted(p: Ppu): (p': Ppu)
    requires p.Valid()
    ensures p'.Valid() && p' == p.(pipe := p'.pipe, curObj := p'.curObj)
  {
    if ObjectDue(p) then StartObject(p) else p
  }

  function XferDot(p: Ppu): (r: Out)
    requires p.Valid() && p.Mode() == DataXfer
    ensures StaysInLine(p, r.p)
  {
    if p.pipe.f.sprite.Some? then
      var p1 := FetchTicked(p);
      if p1.pipe.f.sprite.None? && ObjectDue(p1) then Out(StartObject(p1), [])
      else WindowAndShift(p1)
    else
      WindowAndShift(FetchTicked(ObjectStarted(p)))
  }

  // The for loop over the cycles of one mode 3 stretch; it stops at the end of the line.
  datatype Stretch = Stretch(p: Ppu, consumed: nat, o: seq<Output>)

  function XferStretch(p: Ppu, cycles: nat): (r: Stretch)
    requires p.Valid()
    ensures r.p.Valid() && r.consumed <= cycles && r.p.delay == p.delay
    ensures p.Mode() == DataXfer && cycles > 0 ==> r.consumed > 0
    ensures p.Mode() == DataXfer ==> r.p.Mode() == DataXfer || r.p.Mode() == HBlank
    ensures r.p.lineCycles == p.lineCycles && r.p.enabled == p.enabled
    decreases cycles
  {
    if cycles == 0 || p.Mode() != DataXfer then Stretch(p, 0, [])
    else
      var d := XferDot(p);
      var rest := XferStretch(d.p, cycles - 1);
      Stretch(rest.p, rest.consumed + 1, d.o + rest.o)
  }

  // ---- The end of a line

  predicate Blanking(r: Regs)
  {
    (r.stat.mode == HBlank && r.ly < HEIGHT) || (r.stat.mode == VBlank && HEIGHT <= r.ly <= LAST_LINE)
  }

  function NextMode(r: Regs): Mode
  {
    if r.stat.mode == HBlank then (if r.ly < HEIGHT - 1 then OamSearch else VBlank)
    else (if r.ly < LAST_LINE then VBlank else OamSearch)
  }

  function NextLine(r: Regs): Byte
    requires Blanking(r)
  {
    if r.stat.mode == VBlank && r.ly == LAST_LINE then 0 else r.ly + 1
  }

  // The registers on the next line, with the coincidence flag brought up to date.
  function NextRegs(r: Regs): (r': Regs)
    requires Blanking(r)
    ensures r' == r.(ly := NextLine(r), stat := r'.stat) && r'.stat.mode == NextMode(r)
  {
    r.(ly := NextLine(r), stat := r.stat.(mode := NextMode(r), coincidence := NextLine(r) == r.lyc))
  }

  function EndOfLine(p: Ppu): (r: Out)
    requires p.Valid() && Blanking(p.regs)
    ensures r.p.(lineCycles := 0).Valid() && r.p.Mode() != DataXfer
    ensures r.p == p.(regs := NextRegs(p.regs), winY := r.p.winY)
  {
    var r := p.regs;
    Out(p.(regs := NextRegs(r), winY := if NextLine(r) == 0 then 0 else p.winY),
        (if NextMode(r) != r.stat.mode then ModeRequests(p.enabled, r.stat, NextMode(r)) else [])
        + LineRequests(r, NextLine(r)))
  }

  // The cycles spent, with the wrap at the end of the line.
  function Advanced(p: Ppu, cycles: nat): Ppu
  {
    p.(lineCycles := if p.lineCycles + cycles >= LINE_CYCLES then 0 else p.lineCycles + cycles)
  }

  // ---- One pass of the while loop in Ppu::tick

  function SearchSegment(p: Ppu, cycles: nat): (r: Stretch)
    requires p.Valid() && p.Mode() == OamSearch && cycles > 0
    ensures r.p.Valid() && 0 < r.consumed <= cycles
  {
    if p.lineCycles + cycles >= OAM_CYCLES then
      Stretch(Advanced(StartTransfer(p), OAM_CYCLES - p.lineCycles), OAM_CYCLES - p.lineCycles, [])
    else
      Stretch(Advanced(p, cycles), cycles, [])
  }

  function XferSegment(p: Ppu, cycles: nat): (r: Stretch)
    requires p.Valid() && p.Mode() == DataXfer && cycles > 0
    ensures r.p.Valid() && r.consumed <= cycles
    ensures r.consumed > 0 || (p.delay > 0 && r.p.delay == p.delay - 1)
  {
    if p.delay > 0 then
      Stretch(FetchTicked(p.(delay := p.delay - 1)), 0, [])
    else
      var s := XferStretch(p, cycles);
      Stretch(Advanced(s.p, s.consumed), s.consumed, s.o)
  }

  function BlankSegment(p: Ppu, cycles: nat): (r: Stretch)
    requires p.Valid() && Blanking(p.regs) && cycles > 0
    ensures r.p.Valid() && 0 < r.consumed <= cycles
  {
    if p.lineCycles + cycles >= LINE_CYCLES then
      var e := EndOfLine(p);
      Stretch(e.p.(lineCycles := 0), LINE_CYCLES - p.lineCycles, e.o)
    else
      Stretch(Advanced(p, cycles), cycles, [])
  }

  function Segment(p: Ppu, cycles: nat): (r: Stretch)
    requires p.Valid() && cycles > 0
    ensures r.p.Valid() && r.consumed <= cycles
    ensures r.consumed > 0 || (p.delay > 0 && r.p.delay == p.delay - 1)
  {
    if p.Mode() == OamSearch then SearchSegment(p, cycles)
    else if p.Mode() == DataXfer then XferSegment(p, cycles)
    else BlankSegment(p, cycles)
  }

  // Ppu::tick: a batch of cycles.
  function Batch(p: Ppu, cycles: nat): (r: Out)
    requires p.Valid()
    ensures r.p.Valid()
    decreases cycles, p.delay
  {
    if cycles == 0 || !p.enabled then Out(p, [])
    else
      var s := Segment(p, cycles);
      var rest := Batch(s.p, cycles - s.consumed);
      Out(rest.p, s.o + rest.o)
  }

  // ---- One dot at a time

  function DelaySpent(p: Ppu): (p': Ppu)
    requires p.Valid()
    ensures p'.Valid() && p' == p.(pipe := p'.pipe, delay := 0)
    decreases p.delay
  {
    if p.delay == 0 then p else DelaySpent(FetchTicked(p.(delay := p.delay - 1)))
  }

  function Dot(p: Ppu): (r: Out)
    requires p.Valid()
    ensures r.p.Valid()
  {
    if !p.enabled then Out(p, [])
    else if p.Mode() == OamSearch then
      Out(Advanced(if p.lineCycles == OAM_CYCLES - 1 then StartTransfer(p) else p, 1), [])
    else if p.Mode() == DataXfer then
      var d := XferDot(DelaySpent(p));
      Out(Advanced(d.p, 1), d.o)
    else if p.lineCycles == LINE_CYCLES - 1 then
      var e := EndOfLine(p);
      Out(e.p.(lineCycles := 0), e.o)
    else
      Out(Advanced(p, 1), [])
  }

  function Run(p: Ppu, dots: nat): (r: Out)
    requires p.Valid()
    ensures r.p.Valid()
    decreases dots
  {
    if dots == 0 then Out(p, [])
    else
      var d := Dot(p);
      var rest := Run(d.p, dots - 1);
      Out(rest.p, d.o + rest.o)
  }

  // ---- Writes from the bus

  const VRAM_BASE := 0x8000
  const OAM_BASE := 0xFE00
  const OAM_TOP := 0xFEA0

  // Switching the LCD off goes back to the start of line 0; the fetcher and the queues stay as they are.
  function SwitchedOff(p: Ppu): Ppu
  {
    p.(regs := p.regs.(ly := 0, stat := p.regs.stat.(mode := OamSearch)),
       winY := 0, enabled := false, lineCycles := 0)
  }

  function Switched(p: Ppu, enable: bool): Ppu
  {
    if enable == p.regs.lcdc.enable then p
    else if enable then p.(enabled := true)
    else SwitchedOff(p)
  }

  // Ppu::writeAddr
  function Written(p: Ppu, addr: Word, val: Byte): (p': Ppu)
    requires p.Valid()
    ensures p'.Valid()
  {
    if VRAM_BASE <= addr < VRAM_BASE + VRAM_SIZE then
      if !p.enabled || p.Mode() != DataXfer then p.(vram := p.vram[addr - VRAM_BASE := val]) else p
    else if addr >= 0xFF00 then
      var q := if addr == LCDC_ADDR then Switched(p, LcdcOf(val).enable) else p;
      q.(regs := q.regs.Write(addr, val))
    else if OAM_BASE <= addr < OAM_TOP then
      if !p.enabled || p.dma || p.Mode() == HBlank || p.Mode() == VBlank then
        p.(oam := p.oam[addr - OAM_BASE := val])
      else p
    else p
  }

  // Ppu::writeAddrDMA
  function WrittenByDma(p: Ppu, addr: Word, val: Byte): (p': Ppu)
    requires p.Valid()
    ensures p'.Valid()
  {
    if OAM_BASE <= addr < OAM_TOP then p.(oam := p.oam[addr - OAM_BASE := val]) else p
  }
}
