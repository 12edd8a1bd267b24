# Boldboy: the picture unit, the timer and the step machine of the processor

Boldboy emulates a handheld console. Its picture unit draws 160 x 144 pixels with a pipeline that is
stepped dot by dot: two interleaved fetch machines (tiles and objects), two ring buffers that mix
their pixels, stalls, locks, a fine scroll that drops pixels, and a window that restarts the pipeline
in the middle of a line. What all this is for is a picture that can be described without any
pipeline, and the centre of this project is the proof that the pipeline draws that picture: for
every content of the memories, every setting of the registers and every way of slicing time into
batches of cycles, one frame's worth of cycles leaves exactly the described picture in the frame
buffer, each cell written once, one frame interrupt requested, and the unit ready for the next frame.

Around it stand the facts that need no assumption on the state of the pipeline or on when registers
are written: every frame writes every cell once and requests one frame interrupt; every object of a
line is fetched once, in order and at its own column; the pipeline invariant holds over all histories
of writes; a line ends under an exact condition; batching cycles never makes a difference; and from
power-on, through any history of writes short of one harmful kind, the unit comes to the picture. The
timer, decimal arithmetic and the processor's step machine have their own closed forms and run-level
laws.

How the files fit together:

- `Bytes`, `Pixels`, `Registers`, `PixelFifo`, `Oam`, `Fetch`, `Interrupts`, `Outputs`: one file per
  part of the picture unit. Each has the part as a class whose methods change its fields, arrays and
  ring buffers in place, and next to it the values and functions that specify those methods.
- `PpuUnit`: the picture unit as an object over those parts. Every method is proved to do, in its
  fields, in the frame buffer and in the interrupt lines, what the functions of `PpuCore` say.
  `Screen` loops over ticks and ties the object to the picture.
- `PpuCore`: one dot, one batch, one register write, as functions from state to state and output
  (cells drawn and interrupts requested, in order).
- `Mode3`, `Batching`, `Conservation`, `Turns`, `History`, `Deadline`, `Stopped`, `Timing`: invariants,
  the potential that bounds pixel transfer, batches against single dots, what lines and frames keep,
  object fetches, histories, the one harmful write, and exact lengths.
- `Blueprint` describes the picture from the bytes alone: the sixteen bytes of a tile, the four bytes of an
  object, the map bytes and the register bytes as they read on the bus. It shares no definition with the
  pipeline. `Picture` is the same picture in the terms of the parts, and `Likeness` proves that the two agree.
  `Scanline`, `Objects`, `Mixing`, `Line`, `Frame` prove that the frame is that picture; `Raster` has writes
  between lines; `WindowEdge` and `Flips` say exactly when; `Startup` leads there from any moment.
- `StatusInterrupts` gives the interrupts of the unit from the bits of STAT, and `BusWrites` what writes reach
  and what switching the LCD off and on does.
- `Timer`; `FlagByte`, `FlagScripts`, `Decimal`, `Accumulator`; `Opcodes`, `CycleTable`, `Cpu`, `FlagRuns`,
  `InterruptDiscipline`, `Branches`, `Returns`, `Register16`, `CpuUnit`: timer, arithmetic and processor.

Where the code is not what a description would lead one to expect, the model keeps the code and
states exactly when the two agree:

- A window that should start beyond the left edge (WX below 7) is drawn from its own first or second
  column: `WindowEdge.PictureExactly`.
- A vertically flipped object of 8 x 8 reads the tile that follows: `Picture.ObjRowExact`,
  `Flips.ObjectRowExact`, `Flips.TruePictureExactly`.
- Writing SCX while the background is still off can stop a line for good: `Stopped.StopsForGood` from
  power-on, `Deadline.EndsExactly` and `Deadline.WriteKeepsHealthy` exactly.
- DI does not take back an EI that directly precedes it: `InterruptDiscipline.DiExactly`.
- The comment above `Ppu::tick` (core/src/ppu/ppu.cpp:105-111) says that whole modes are completed at
  once; the code below it steps pixel transfer by single dots, and so does the model.

Pixels and interrupts are outputs of `PpuCore`; `Outputs.Shown` says what a list of outputs does to
a frame buffer. Inputs from outside (batches of cycles, writes, the DMA flag, devices that change
memory and request lines between the processor's ticks) are parameters.

## Model

| member | source | states |
|---|---|---|
| Frame.FrameShowsPicture | core/src/ppu/ppu.cpp:112-313 | from the start of a frame, with the window not starting left of the screen, batches of any sizes adding up to 70224 cycles write every cell exactly once with the grey level that the bytes describe (`BytesShow`: tiles, maps, scroll, window rows from WY and columns from WX - 7, first ten objects of a line, first opaque one by (x, OAM index), below-background flag, palettes, 255/169/84/0), request VBlank once and reach the next frame with memories and registers unchanged |
| Frame.FrameByBatches | core/src/ppu/ppu.cpp:112-313 | the same, bytes included, for every WX, with the window's left edge where the program lets it begin, provided no object is fetched between that edge and the left border |
| Likeness.LevelIsDescribed | core/src/ppu/fetcher.cpp:32-131 | the picture in the terms of fetcher, queues and object list is the one the bytes describe: bit 7 - k of the two bytes of a tile's row is pixel k, tiles 0 to 255 or 128 to 383 by LCDC bit 4, maps by bits 3 and 6, object rows over one tile or two, ten objects of a line in OAM order, flips, priority, palettes and levels |
| Likeness.TileIsNamed | core/src/ppu/fetcher.cpp:54-70 | the tile fetch reads byte 2 r + plane of the sixteen bytes of the tile that the map byte names, r being the row from the top |
| Likeness.ObjectIsColour | core/src/ppu/fetcher.cpp:105-131 | an object's pixel at a column, from its four OAM bytes and its tile's bytes |
| Likeness.ListedIsFound | core/src/ppu/ppu.cpp:134-143 | the object list of line LY holds exactly the entries with rows on y - 16 to y - 16 + height - 1 and fewer than ten such before them |
| Likeness.LcdcBits | core/inc/ppu/registers.h:71-74 | the byte that LCDC reads as has each switch in its own bit |
| Likeness.OutputLayers | core/src/ppu/pixelfifo.cpp:30-59 | the shade of a pop, from the register bytes: an opaque object pixel is in front of every background pixel if its flag is clear; with the flag it shows if and only if the layer below has colour 0 or is switched off; otherwise the layer shows |
| Likeness.PopTakes | core/src/ppu/pixelfifo.cpp:23-67 | what a pop takes from the two queues: nothing while locked, and no object pixel over background while objects are off |
| Likeness.LoadTakes | core/src/ppu/pixelfifo.cpp:77-89 | a tile line adds its eight pixels, flipped or not, unless more than eight are queued or the background is off |
| Blueprint.DescribesOne | core/src/ppu/pixelfifo.cpp:47-59 | the bytes describe one level for a cell |
| Flips.FrameShowsTruePicture | core/src/ppu/ppu.cpp:112-313 | the same with every object taken from its own tile, bytes included (`BytesShowTruly`), provided no flipped object is eight rows tall |
| Flips.TruePictureExactly | core/src/ppu/ppu.cpp:112-313 | for given registers, every frame is that picture whatever VRAM, OAM and the three palettes hold, if and only if the window (where shown) starts on screen and objects are off or 16 rows tall |
| Flips.ObjectRowExact | core/src/ppu/fetcher.cpp:105-130 | the row of pixels drawn for an object is its own for every content of VRAM, if and only if it is not flipped or is 16 rows tall |
| WindowEdge.PictureExactly | core/src/ppu/ppu.cpp:211-222 | for given registers, every frame shows the picture whatever VRAM, OAM and palette hold, if and only if the window is off, below the screen, or WX is at least 7 |
| WindowEdge.NarrowWindowDiffers | core/src/ppu/ppu.cpp:211-222 | for every register setting outside that condition, memories on which a cell differs from the picture |
| Screen.RunFrame | core/src/ppu/ppu.cpp:112-313 | the object: from the start of a frame, ticks that add up to a frame leave in `frameBuf` the levels that the bytes describe, whatever was there before, and the unit at the start of the next frame |
| Screen.RunToPicture | core/src/ppu/ppu.cpp:112-313 | the object, from any moment of a running unit: ticks to the end of the second frame after this one leave in `frameBuf` the levels that the bytes describe |
| Screen.Drive | core/src/ppu/ppu.cpp:43-367 | the object under any interleaving of ticks, bus writes, DMA writes and DMA start and stop is the unit after that history, and keeps the pipeline invariant |
| Screen.RunAll | core/src/ppu/ppu.cpp:112-313 | a run of ticks, nothing written in between, changes state, frame buffer and interrupt lines as the batches of the specification do |
| Conservation.FrameConserves | core/src/ppu/ppu.cpp:112-313 | frame conservation from the start of any frame (LCD on, deadline kept; the pipeline, window row, WX and objects may be anything): 154 x 456 dots write each of 144 x 160 cells exactly once, request VBlank exactly once, and return to mode 2, line 0, line cycle 0 with the pipeline reset, registers and memories as they were |
| Startup.FrameConservesByBatches | core/src/ppu/ppu.cpp:112-313 | the same for batches of any sizes that add up to a frame |
| Conservation.LineConserves | core/src/ppu/ppu.cpp:128-268 | 456 dots from the start of any visible line output its 160 columns, once each and in order, then the line's interrupt requests (their number and kind is in `StatusInterrupts`), and lead to the next line with a reset pipeline and the window row counted |
| StatusInterrupts.TransferRequests | core/src/ppu/ppu.cpp:328-342 | within mode 3 nothing is requested; the dot that closes it requests the LCD status interrupt if and only if STAT bit 3 is set |
| StatusInterrupts.LineEndRequests | core/src/ppu/ppu.cpp:255-342 | the last dot of a line: LY counts on or wraps from 153 to 0, STAT bit 2 becomes LY = LYC, VBlank is requested after line 143 only, the status interrupt by bit 5 on entering mode 2, by bit 4 on entering mode 1, and once more by bit 6 if the new LY is LYC |
| StatusInterrupts.OtherDots | core/src/ppu/ppu.cpp:112-313 | every other dot requests and draws nothing |
| StatusInterrupts.FrameRequests | core/src/ppu/ppu.cpp:112-342 | over a frame: VBlank once, the status interrupt 144 b3 + b4 + 144 b5 times, and once more if b6 and LYC is at most 153 |
| BusWrites.VideoWrite | core/src/ppu/ppu.cpp:43-49 | a VRAM write reaches its byte unless the LCD is on and STAT reads mode 3, and touches nothing else |
| BusWrites.ObjectWrite | core/src/ppu/ppu.cpp:76-80 | an OAM write reaches its byte in modes 0 and 1, with the LCD off and during DMA, and touches nothing else |
| BusWrites.ObjectWriteByDma | core/src/ppu/ppu.cpp:360-367 | a DMA write reaches its OAM byte in every mode |
| BusWrites.OtherWrites | core/src/ppu/ppu.cpp:43-81 | no other write touches memory, and none below the registers does anything |
| BusWrites.SwitchOff | core/src/ppu/ppu.cpp:58-68 | clearing LCDC bit 7 stops the unit at line 0, mode 2, line cycle 0, with the pipeline as it was; no cycles move it |
| BusWrites.OffAndOn | core/src/ppu/ppu.cpp:55-69 | setting it again starts a frame, whatever the pipeline was doing |
| Conservation.TransferConserves | core/src/ppu/ppu.cpp:164-254 | from any healthy point of mode 3, its rest draws the columns still missing, once and in order, and ends reset |
| Conservation.XferDotMoves | core/src/ppu/ppu.cpp:173-253 | over any valid state, a dot of mode 3 outputs nothing and stays, or passes one column and draws it if on screen, or draws column 159 and closes the line |
| Startup.FrameComes | core/src/ppu/ppu.cpp:112-313 | a running unit, in any mode and with any pipeline, is at the start of the next frame after exactly 70224 - 456 LY - line cycle dots, with settings and memories as they were |
| Startup.PictureComes | core/src/ppu/ppu.cpp:112-313 | from any moment, with the window not left of the screen: at the end of the second frame after this one, however batched, every cell holds the picture |
| Startup.HealthyFromPowerOn | core/src/ppu/ppu.cpp:24-81 | after any history since power-on without a harmful SCX write, LCD off in mode 3 and the unset background switch included, every line keeps its deadline |
| Startup.PictureFromPowerOn | core/src/ppu/ppu.cpp:24-313 | so power-on, any such history and then enough undisturbed cycles with the LCD on lead to the picture in every cell |
| Frame.WholeFrame | core/src/ppu/ppu.cpp:112-313 | in single dots, from a reset pipeline and with no object fetched left of a window that begins left of the border: each cell is written once, with what the program's window edge lets the picture be |
| Frame.LineRun | core/src/ppu/ppu.cpp:128-268 | under the same two conditions the output of a line is exactly the picture's columns followed by the line's requests |
| Raster.FrameOfLines | core/src/ppu/ppu.cpp:43-313 | a frame with any register, VRAM, OAM and DMA writes between its lines (LCD kept on): every cell is written once, and each row shows what registers and memories describe as that line begins, the window row counting the lines that have shown the window |
| Line.TransferRun | core/src/ppu/ppu.cpp:164-254 | from any consistent point inside mode 3, the rest of mode 3 draws exactly the columns still missing, in order, and then requests the HBlank interrupt if enabled |
| Line.XferLineStep | core/src/ppu/ppu.cpp:173-253 | every dot of mode 3, stalled or not, keeps the line invariant (tile stream, window, object queue) and outputs nothing or the picture's next column |
| Scanline.StreamIsBackground | core/src/ppu/fetcher.cpp:32-72 | the tile stream after SCX mod 8 dropped pixels is pixel ((c + SCX) mod 256, (LY + SCY) mod 256) of the background map |
| Scanline.StreamIsWindow | core/src/ppu/fetcher.cpp:162-169 | the stream restarted for the window is the window from its left edge on, in the row of the window counter |
| Scanline.BackgroundInStep | core/src/ppu/fetcher.cpp:24-90 | a fetcher tick, whatever the stalls, keeps the queue a stretch of the tile stream up to a tile border and the fetcher on the very next tile: tiles are pushed once and in order, and the tile counter advances once per tile |
| Objects.ObjHead | core/src/ppu/pixelfifo.cpp:47-57 | at a column that is shifted out, the head of the object queue mixes as the picture's topmost object there |
| Objects.QueuedMix | core/src/ppu/pixelfifo.cpp:91-109 | mixing in the next object at its own column keeps, at every queued column, the first opaque object among those loaded |
| Objects.QueuedPop | core/src/ppu/pixelfifo.cpp:47-67 | popping one pixel moves the queue to the next column |
| Mixing.PoppedIsWinner | core/src/ppu/pixelfifo.cpp:47-109 | for any interleaving of loads (each at its own column) and pops, the pixel popped at a column is that of the first object of the whole run that is opaque there, and transparent or absent if there is none |
| Mixing.RunIsQueued | core/src/ppu/pixelfifo.cpp:91-109 | after any such interleaving the queue, of at most 8 pixels, holds the winners of all columns from the current one on |
| Picture.TopObjectHasPriority | core/src/ppu/ppu.cpp:145-155 | in a sorted object list, the topmost object of a column is the opaque one that precedes all others in (x, OAM index) |
| Picture.ObjRowExact | core/src/ppu/fetcher.cpp:108-115 | the tile row read for an object is the true one if and only if it is not flipped or is 16 rows tall; otherwise it is eight too large and lies in the next tile |
| Picture.FlippedSmallObjectReadsNextTile | core/src/ppu/fetcher.cpp:108-115 | an input on which the flipped row is wrong: row 15 instead of 7 |
| Mode3.XferDotCost | core/src/ppu/ppu.cpp:173-253 | every dot of mode 3 either ends the line or strictly lowers the potential (columns, starvation, object in progress, ten per object to come, eleven for a pending window start), and keeps the pipeline invariant |
| Mode3.PotentialBounds | core/src/ppu/ppu.cpp:15-18 | the potential is between 1 and 295, well below the 376 dots left in a line |
| Timing.LineLength | core/src/ppu/ppu.cpp:164-254 | from the start of any line mode 3 takes 168 to 295 dots; with a reset pipeline at most 179 plus ten per object found |
| Timing.QuietLineLength | core/src/ppu/ppu.cpp:164-254 | without objects it takes exactly 168 dots for every SCX, and exactly 175 when the window is shown |
| Timing.LineModes | core/src/ppu/ppu.cpp:127-268 | a line is mode 2 for exactly 80 dots, mode 3 for its length, and mode 0 up to dot 456 |
| Timing.ObjectHolds | core/src/ppu/fetcher.cpp:93-145 | an object holds its column for exactly six dots plus those the tile fetch needs to reach its fifth step |
| Turns.EveryObjectOnce | core/src/ppu/ppu.cpp:128-252 | over a whole line, with any writes but LCDC between any two dots and any pipeline at its start: what is fetched up to HBlank is every found object with x up to 167, each once, in (x, OAM index) order, begun at column x - 8 and finished before the next, after at most one object left over from a line cut short |
| Turns.DotFollows | core/src/ppu/ppu.cpp:177-207 | every dot of mode 3 keeps that record: it begins the next object at its own column, finishes the pending one, or passes a column at which no object is due |
| Batching.BatchIsRun | core/src/ppu/ppu.cpp:124-311 | `tick(n)`, with its jumps to mode boundaries and its free SCX delay ticks, equals n single dots in state, pixels and interrupt requests |
| Batching.BatchSplits | core/src/ppu/ppu.cpp:124-311 | `tick(a + b)` equals `tick(a)` followed by `tick(b)`, for all a and b |
| Deadline.EndsExactly | core/src/ppu/ppu.cpp:234-240 | left alone, mode 3 ends if and only if the background is on or the column that switches it on is still ahead |
| Deadline.NeverEnds | core/src/ppu/ppu.cpp:219-240 | once that column has been missed, no number of dots ends the line |
| Stopped.StopsForGood | core/src/ppu/ppu.cpp:219-240 | an input that does it: from power-on, LCD and background on, 84 cycles, SCX := 5, and mode 3 never ends |
| Stopped.LineCanStop | core/src/ppu/ppu.cpp:219-240 | the same write four dots into any line without window, objects and fine scroll, the unit being in order until then |
| Deadline.WriteKeepsHealthy | core/src/ppu/ppu.cpp:43-81 | a write keeps the line's deadline if and only if it is not an SCX write that moves the enabling column behind the current one while the background is off |
| Deadline.AlwaysHealthy | core/src/ppu/ppu.cpp:43-313 | over any history of ticks, writes and DMA without such a write, the deadline of every line is kept |
| Deadline.TicksSplit | core/src/ppu/ppu.cpp:43-313 | after any such history batches may be cut anywhere, and mode 3 ends before the line does |
| History.AlwaysConsistent | core/src/ppu/ppu.cpp:43-81 | any history of ticks, register, VRAM, OAM and DMA writes, LCD off in mode 3 included, keeps: queue locked iff object pending, idle fetcher only with an object pending and 8 background pixels queued, queues of at most 8, LY below 144 outside VBlank and 144 to 153 inside, map and tile offsets as LCDC selects, enabled iff LCDC bit 7 |
| History.FromPowerOn | core/src/ppu/ppu.cpp:24-35 | the same from the constructor's state, with the background switch of the queue unset |
| History.WriteMovesNothing | core/src/ppu/ppu.cpp:43-81 | a write moves neither queues, fetcher, column nor object list, leaves mode 3 only by switching the LCD off, and touches mode, switch and LCDC only through LCDC |
| History.ShownPixelIsValid | core/src/ppu/ppu.cpp:226-229 | the assertion never fires: a pixel taken for a visible column is a shade, at a row and column inside the frame buffer |
| PpuUnit.Ppu.Tick | core/src/ppu/ppu.cpp:112-313 | the loop terminates ((cycles, delay) decreases), never consumes more than it has, and changes registers, queues, frame buffer and interrupt lines exactly as the specified batch |
| PpuUnit.Ppu.XferDot | core/src/ppu/ppu.cpp:173-253 | one iteration of the mode 3 loop on the object is one dot of the specification |
| PpuUnit.Ppu.Shift | core/src/ppu/ppu.cpp:224-252 | one pixel out: the frame cell, the next column, background enable, and at column 160 HBlank with both parts reset and the window row counted |
| PpuUnit.Ppu.EndLine | core/src/ppu/ppu.cpp:255-301 | the end of a line: next line, VBlank or next frame, with the interrupts of mode and line |
| PpuUnit.Ppu.WriteAddr | core/src/ppu/ppu.cpp:43-81 | writes with the VRAM lock in mode 3, the OAM lock outside blanking, and LCD on and off; never a request |
| PpuUnit.Ppu.WriteAddrDMA | core/src/ppu/ppu.cpp:360-367 | DMA writes reach OAM in every mode and nothing else |
| PpuUnit.Ppu.constructor | core/src/ppu/ppu.cpp:24-35 | the unit starts off, in mode 2, with reset parts, and without a request |
| Outputs.ShownAppend | core/src/ppu/ppu.cpp:229-229 | the effects of two stretches of output on a frame buffer compose |
| Fetch.Fetcher.Tick | core/src/ppu/fetcher.cpp:16-147 | one tick of both fetch machines on the object, all memory reads in range, equals the specified tick |
| Fetch.Fetcher.TickBackground | core/src/ppu/fetcher.cpp:24-90 | the tile machine: map read, two plane reads with signed or unsigned tile numbers, and the push that waits for an empty queue |
| Fetch.Fetcher.TickObject | core/src/ppu/fetcher.cpp:92-145 | the object machine, ending with the mixed line, the unlocked queue and the tile machine woken if idle |
| PixelFifo.PixelFIFO.Tick | core/src/ppu/pixelfifo.cpp:18-71 | on the ring buffers: the popped and mixed shade, the invalid pixel when locked or without background, and both queues one shorter where they were not empty and not switched off |
| PixelFifo.PixelFIFO.LoadBG | core/src/ppu/pixelfifo.cpp:77-89 | the ring takes the eight pixels of a line at its tail, unless the background is off or more than eight are queued |
| PixelFifo.PixelFIFO.LoadMixSprite | core/src/ppu/pixelfifo.cpp:91-109 | the two mixing loops over the ring make the object queue the mixed line of eight |
| PixelFifo.PixelFIFO.Clear | core/src/ppu/pixelfifo.cpp:111-121 | the background queue is emptied, the object queue only on request |
| Pixels.LoadLine | core/src/ppu/tileline.cpp:18-41 | the shifting loop decodes pixel i as bit 7 - i of the two planes |
| Oam.LineObjsCorrect | core/src/ppu/ppu.cpp:131-155 | the object list is strictly ordered by (x, OAM index) and a permutation of the first at most ten entries that cover the line |
| Oam.OnLineMember | core/src/ppu/ppu.cpp:134-143 | the search finds an entry if and only if its rows cover LY |
| Oam.OnLineOrdered | core/src/ppu/ppu.cpp:134-143 | it finds them in OAM order |
| Oam.ExchangeSortSorts | core/src/ppu/ppu.cpp:145-155 | the exchange sort orders any list of distinct entries, the empty one included, and loses none |
| Oam.SearchOam | core/src/ppu/ppu.cpp:131-143 | the search loop leaves exactly the first ten covering entries in front of the array and the rest of it untouched |
| Oam.SortFound | core/src/ppu/ppu.cpp:147-155 | the two sort loops, in place on the array, do the exchange sort of its front part |
| Oam.EntryBytes | core/src/ppu/oamentry.cpp:15-26 | an entry gives back its four OAM bytes, and its attributes are the upper half of the last: 8 below background, 4 vertical flip, 2 horizontal flip, 1 second palette |
| Registers.ReadBack | core/inc/ppu/registers.h:32-98 | every register reads back what was written, STAT keeping its low three bits and LY ignoring the write, and no write touches another register |
| Registers.StatWrite | core/inc/ppu/registers.h:41-43 | a STAT write replaces the four interrupt enables only |
| Registers.LcdcRoundTrip | core/inc/ppu/registers.h:34-40 | the LCDC byte survives being kept as eight switches |
| Registers.PowerOnReads | core/inc/ppu/registers.h:14-30 | at power-on every register reads 0, other addresses 0xFF |
| Registers.PpuRegisters.Write | core/inc/ppu/registers.h:32-69 | a write changes the register and the derived map and tile offsets as specified |
| Interrupts.PendingIsLowest | core/src/cpu/int_controller.cpp:57-69 | the pending source is the lowest-numbered one that is requested and enabled |
| InterruptDiscipline.RequestBits | core/src/cpu/int_controller.cpp:39-44 | VBlank, LCD status and timer requests set bits 0, 1 and 2 of IF and no other |
| Interrupts.ClearOnlyOne | core/src/cpu/int_controller.cpp:39-51 | clearing drops one request and no other, and undoes nothing but a request of the same source |
| Interrupts.InterruptController.GetPending | core/src/cpu/int_controller.cpp:57-69 | the priority loop returns the specified source |
| Timer.TimerByBatches | core/src/io/io_timer.cpp:79-105 | any batches of n cycles in all: TIMA has counted k = floor((S+n)/P) - floor(S/P) with reload from TMA in closed form, SysTick has wrapped, and requests equal overflows; requested iff T + k >= 256 |
| Timer.TimerStopped | core/src/io/io_timer.cpp:82-86 | a stopped timer: any ticks let the counter run on, TIMA stands still and nothing is requested |
| Timer.ClosedForm | core/src/io/io_timer.cpp:88-104 | the same for n single cycles |
| Timer.EdgeIsPeriod | core/src/io/io_timer.cpp:91-92 | the falling-edge detector fires exactly when 2 x mux bit divides the next count, across the wrap of the 16-bit counter |
| Timer.IoTimer.Tick | core/src/io/io_timer.cpp:79-105 | the loop on the object is the specified number of cycles, with the interrupt requested iff it overflowed |
| Timer.IoTimer.WriteAddr | core/src/io/io_timer.cpp:18-62 | TAC starts and stops and selects one of four bits, DIV clears the counter, TIMA and TMA are stored |
| Decimal.DecimalSum | core/src/cpu/cpu_opcodes.cpp:268-302 | chaining ADC and DAA over n packed decimal bytes gives decimal digits whose value plus 100^n times the final carry is the sum |
| Decimal.DecimalDifference | core/src/cpu/cpu_opcodes.cpp:268-302 | chaining SBC and DAA gives the difference modulo 100^n and the borrow |
| Decimal.AddThenSubtract | core/src/cpu/cpu_opcodes.cpp:268-302 | subtracting what was added gives back every byte and the carry |
| Decimal.XorShowsCarry | core/src/cpu/cpu.cpp:178-192 | the flags taken from operand xor operand xor carry xor result are the true nibble and byte carries |
| Decimal.XorShowsBorrow | core/src/cpu/cpu.cpp:194-207 | the same for borrows, in the 16-bit difference |
| Accumulator.Alu.Add | core/src/cpu/cpu.cpp:178-192 | with F as a byte: the sum modulo 256, Z, H and C as the true zero test and carries, N kept, by writes that follow the script of `add` |
| Accumulator.Alu.Sub | core/src/cpu/cpu.cpp:194-207 | the difference modulo 256, Z, H and C as the true zero test and borrows, N kept, by writes that follow the script of `sub` |
| Accumulator.Alu.DaaA | core/src/cpu/cpu_opcodes.cpp:268-302 | the adjustment on accumulator and F, by writes that follow the script of DAA |
| Accumulator.Alu.AddNumbers | core/src/cpu/cpu_opcodes.cpp:383-389 | ADC and DAA along two arrays of packed decimal bytes leave the decimal sum and carry in place |
| Accumulator.Alu.SubNumbers | core/src/cpu/cpu_opcodes.cpp:449-455 | SBC and DAA likewise leave the decimal difference and borrow |
| FlagRuns.LowNibbleAlways | core/inc/cpu.h:17-22 | over any run of the step machine with F held as a byte (instructions, interrupts, devices, in the middle of instructions too) the low nibble of F stays zero |
| FlagRuns.InstructionSpares | core/src/cpu/cpu.cpp:105-149 | from its fetch on, an instruction whose handler writes what its opcode's script allows changes only the flags that script names, in however many ticks |
| FlagScripts.ScriptSpares | core/src/cpu/cpu.cpp:178-367 | for each of the 512 opcodes, its list of flag macro uses: any execution of the list keeps the low nibble zero and spares every flag it does not name |
| FlagScripts.ArithmeticScripts | core/src/cpu/cpu_opcodes.cpp:349-585 | which opcodes add, subtract or compare, and, or and adjust |
| FlagRuns.WhatBaseSpares | core/src/cpu/cpu_opcodes.cpp:100-211 | INC and DEC spare C, 16-bit additions Z, DAA N, register loads all flags |
| FlagRuns.WhatExtSpares | core/src/cpu/cpu.cpp:360-377 | BIT spares C, RES and SET all flags |
| FlagByte.LowNibbleStaysZero | core/inc/cpu.h:17-22 | any list of the flag macros and of POP AF's masked byte keeps the low nibble zero and acts on the byte as on the four flags |
| FlagByte.TestedBits | core/inc/cpu.h:12-21 | zero, subtraction, half carry and carry are bits 7, 6, 5 and 4 |
| Opcodes.ScheduleMatchesTable | tools/opcodes.json:1-3641 | for every opcode of both tables the tick lengths of its handler add up to the table's cycles, or branch cycles when taken, in one to five ticks |
| CycleTable.BaseCycles | tools/opcodes.json:1-1846 | the cycles of every unprefixed opcode are those of the opcode list |
| CycleTable.ExtCycles | tools/opcodes.json:1847-3641 | and of every prefixed one |
| CycleTable.StagedTicks | core/src/cpu/cpu_opcodes.cpp:119-820 | which opcodes work through several ticks without branching, and what each tick reports |
| Cpu.InstructionCycles | core/src/cpu/cpu.cpp:105-149 | from the fetch, whatever devices and handlers do, an instruction is between instructions again exactly at its last tick, at most the fifth, and its reported cycles sum to the table's |
| Branches.ConditionalFlow | core/src/cpu/cpu_opcodes.cpp:587-680 | JP cc, CALL cc, RET cc by opcode byte: the condition holds if and only if bit 7 (NZ, Z) or bit 4 (NC, C) of F equals bit 3 of the opcode; then PC is the two operand bytes or the two bytes at SP, low byte first, else it is just behind the instruction; 16 or 12, 24 or 12, 20 or 8 cycles; whatever devices do between the ticks |
| Branches.UnconditionalFlow | core/src/cpu/cpu_opcodes.cpp:604-684 | JP, CALL, RET and RETI likewise, 16, 24, 16 and 16 cycles |
| Branches.RelativeCycles | core/src/cpu/cpu_opcodes.cpp:245-267 | JR cc takes 12 cycles if its condition holds in F and 8 if not |
| Branches.RstGoes | core/src/cpu/cpu_opcodes.cpp:686-689 | RST goes to 8 n, n being bits 3 to 5 of the opcode, with SP down by two, in 16 cycles |
| Branches.ConditionalOpcodes | tools/opcodes.json:1-3641 | which opcodes are conditional, and their cycles |
| Branches.ControlOpcodes | tools/handlers.json:1-511 | which opcodes are JP, CALL, RET, RETI, HALT, EI, DI and RST |
| Branches.Prefixed | core/src/cpu/cpu.cpp:105-131 | 0xCB selects the second table by the next byte, and PC passes both |
| Cpu.InstructionRuns | core/src/cpu/cpu.cpp:105-149 | after k ticks it is in state k with the same opcode and prefix, has reported the first k entries of its schedule, and is not halted |
| CpuUnit.Processor.Tick | core/src/cpu/cpu.cpp:61-149 | the object's tick (pending enable, wake-up, dispatch, fetch with prefix, handler) is the specified tick in registers, memory, control state and cycles |
| CpuUnit.Processor.TakeInterrupt | core/src/cpu/cpu.cpp:80-100 | wake-up and dispatch: request cleared, master enable dropped, PC pushed, vector entered |
| CpuUnit.Processor.ProcCallSubstate | core/src/cpu/cpu.cpp:379-412 | the five states of a call through `mCache`, the untaken one ending after three |
| CpuUnit.Processor.OphRet | core/src/cpu/cpu_opcodes.cpp:604-623 | the four states of a return |
| CpuUnit.Processor.OphJump | core/src/cpu/cpu_opcodes.cpp:653-672 | the four states of a jump |
| CpuUnit.Processor.PushStack16 | core/src/cpu/cpu.cpp:216-227 | high byte first, each below the last |
| InterruptDiscipline.DispatchBits | core/src/cpu/cpu.cpp:80-100 | an interrupt is taken if and only if between instructions, with the master enable on and IE and IF sharing one of bits 0 to 4 |
| InterruptDiscipline.DispatchEffect | core/src/cpu/cpu.cpp:80-100 | with i the lowest bit set in both IE and IF, PC becomes 0x40 + 8 i, only bit i of IF is cleared, the enable goes off, 20 cycles |
| InterruptDiscipline.HaltStays | core/src/cpu/cpu.cpp:80-104 | a halted processor passes four cycles with its registers as they were while no bit is set in both IE and IF |
| InterruptDiscipline.HaltEnds | core/src/cpu/cpu.cpp:80-104 | any such bit ends the HALT; with the master enable off the tick fetches |
| InterruptDiscipline.EiDelaysOneInstruction | core/src/cpu/cpu_opcodes.cpp:54-57 | after EI no tick of the next instruction (another EI and RETI included) takes an interrupt, and at the tick after it the enable is on and a raised source is taken |
| InterruptDiscipline.EiLeads | core/src/cpu/cpu_opcodes.cpp:54-57 | EI with the enable off leads into that situation |
| InterruptDiscipline.DiExactly | core/src/cpu/cpu_opcodes.cpp:59-61 | after DI the enable is off at the next tick if and only if DI did not directly follow an EI |
| InterruptDiscipline.DelayMeansPending | core/src/cpu/cpu.cpp:68-78 | every tick keeps the delay flag a companion of the pending flag |
| Returns.NestedReturns | core/src/cpu/cpu.cpp:379-412 | calls, RSTs and interrupts nested to any depth, with the live stack in RAM and otherwise unmodified: every RET or RETI comes back to its own return address and stack pointer, in LIFO order, and the live stack is as it was |
| Returns.EntersPushes | core/src/cpu/cpu.cpp:209-227 | each way in, in one tick or five, leaves the return address just below the old stack pointer and everything above as it was |
| Returns.LeavesPops | core/src/cpu/cpu_opcodes.cpp:587-628 | each way out takes the address on top of the stack and the stack pointer up by two |
| Returns.RamHolds | core/src/cpu/cpu.cpp:225-227 | in the memory of the model a pushed byte sticks at 0xC000 to 0xDFFF and 0xFF80 to 0xFFFE |
| Register16.Reg16.Write | core/src/cpu/reg16.cpp:13-16 | the value is split over the two halves |
| Register16.Reg16.Increment | core/src/cpu/reg16.cpp:30-36 | counts up across the halves and around 0xFFFF, and returns the new value |
| Register16.Reg16.Decrement | core/src/cpu/reg16.cpp:38-44 | counts down across the halves and around 0, and returns the new value |
| Register16.Reg16.PostIncrement | core/src/cpu/reg16.cpp:46-51 | counts up and returns the old value |
| Register16.Reg16.PostDecrement | core/src/cpu/reg16.cpp:53-59 | counts down by two and returns the value in between |

## Left out

- Frame.FrameByBatches: does not say what a frame shows when a window with WX below 7 begins left of the border and an object with x between WX + 1 and 7 is fetched before it; columns then advance with an empty queue, and no simple description of the result exists in the repository.
- Frame.FrameShowsPicture: starts from a reset pipeline and holds registers fixed over the frame; a stale pipeline lasts one line (`Startup` goes on from there), writes between lines are in `Raster`, and what writes within a line do to its pixels is left to the invariants.
- Picture.ObjectRow: takes the row the program reads, so that `FrameShowsPicture` covers flipped objects of 8 x 8 too; `Flips` has the picture with true rows and the exact condition.
- PpuUnit.Ppu.constructor: object counters, column and delay start at zero, where the original leaves them unset until the first search writes them.
- CpuUnit.Processor.Tick: the register and memory effects of handlers that take one tick, and of each stage of the staged ones, are arbitrary parameters (`Cpu.Effect`), so that the laws hold for any such effects; the quirks of INC (HL) and LD HL,SP+r8 are therefore not stated.
- Cpu.Push8: bytes stick in RAM only; echo RAM, video memory, I/O registers and cartridge banks as targets of a push are outside the model.
- FlagScripts.Script: lists the flag macros of every opcode's handler in order; that a handler runs its list is proved for add, sub, ADC, SBC and DAA (`Accumulator`) and an assumption of `FlagRuns.InstructionSpares` for the others; `FlagRuns.LowNibbleAlways` does not need it.
- Cpu.InstructionCycles: one-tick and staged handlers enter by their cycle lists and with arbitrary effects, control-flow handlers by their code.
- Cpu.InstructionRuns: the same.
- Opcodes.ScheduleMatchesTable: the tick lengths of staged handlers are data read off their code.
- Screen.RunFrame: nothing is written between the ticks; `Screen.Drive` has the writes, without the picture, and `Raster.FrameOfLines` has them between lines, with it.
- Screen.RunAll: the same.
- LCDC and STAT are held as their bits and converted to bytes when read; `mSprite` is the index of the entry in the found list instead of a pointer to it.
- Reading through `Ppu::readAddr`, `Ppu::getFrame`, and the LYC write that does not refresh the coincidence bit until the next line.
- The joypad, the serial port, I/O routing, the copy loop of OAM DMA, cartridges and their banking, the memory map.
- Front ends, logging, file loading, the test harness and the generation of the opcode tables.
- How the original hardware behaves where this code differs from it.
