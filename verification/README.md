# A verified model of the emulator's timing, memory maps and 2D fast paths

This project models the state machines and address arithmetic of the Nintendo DS
emulator in Dafny and proves what they keep: over every run, for every program
and for every input. The parts are independent; each has a module (or two) that
says what the code means, as functions with lemmas about them, and where the
source updates state in place, a module whose classes and methods are proved to
compute those functions. What the functions themselves mean is fixed a second time, in
literal addresses, bits and mode numbers, by the laws of SchedulerWakes, DmaTriggers,
VramPlaces, TextTiles, SpriteFormats and ArmSeparation.

| subject | modules |
|---|---|
| event scheduler and the two CPUs (`NDS_exec`, `armInnerLoop`) | SchedulerModel, SchedulerProofs, SchedulerRuns, SchedulerLimits, SchedulerFreeze, SchedulerStall, SchedulerWakes; SchedulerMachine |
| hardware timers | Timers, SchedulerTimers |
| DMA controller | Dma, DmaBursts, DmaTriggers, DmaScheduling; DmaMachine |
| VRAM banking, shared WRAM | Vram, VramPlaces, Wram; VramMachine |
| text and affine backgrounds | TextBg, TextTiles, Affine |
| sprites and layer composition | Sprites, SpriteFormats, Layers; SpriteMachine |
| windows | Window |
| IPC FIFOs | IpcFifo; IpcMachine |
| square root unit | Sqrt |
| ARM register banks | ArmBanks, ArmSeparation; ArmMachine |
| division lemmas | Arith |

`dafny verify dfyconfig.toml` checks everything.

## How the model reads

- **Scripts for programs and devices.** What an instruction or a hardware event
  does is not modelled. Each call of `armcpu_exec`, each event handler and each
  interrupt poll takes its cost and its effects (halting, freezing the bus,
  writing the event table) from a script, the `Oracle`. A theorem for every script
  holds for every program. `Bounded(o, C)` says that no instruction costs more than
  C clock ticks; it is the only assumption of the safety theorems. `Progressive` is
  the assumption of the progress theorems: a handler schedules an event for a later
  tick, or for its own tick if the same poll visits that event afterwards; and it may
  trigger DMA channels, visited before it or not, which is refused to a channel in
  flight. So a copy into the geometry FIFO may resume a paused channel with a lower
  number: `Weight` counts the channels that can still do so in one tick. What it
  excludes is a DMA copy that takes no time (of zero words) and one that writes, in
  the source's registers, the control word of a channel visited before it, or that of
  a channel in flight.
- **The geometry FIFO.** Its length, its stall and a pending buffer swap are part of
  the state: a port write stalls the bus at 255 entries or more, a batch takes up to
  127 and comes back a tick later, entries push its event a tick each, and from a swap
  to the next vertical blank the event does nothing and is switched off
  (`source/gfx3d.cpp:2199-2201`; `FLUSHMODE_HACK` is not defined). What the commands
  do is not modelled, except that a batch may swap. The flag `port` of a feed has no
  effect but that stall, so a run in which no port write finds the FIFO full is also
  the run of the script without the flags: `NeverStalls` asks for no more than that.
- **Time.** The 64-bit clocks are unbounded integers. The inner loop of
  SchedulerMachine runs on 32-bit times, as the source does, with every operation
  shown not to overflow.
- **Lateness.** An instruction may schedule an event for the very tick it started
  in (a DMA channel is started that way), and the event is then late by all of the
  instruction: `ExactlyOneInstructionLate` is such a run. Otherwise lateness stays
  below C (`PromptRunsArePunctual`).
- **Freezing.** DMA may freeze the bus at will: every event is still at most one
  instruction late (`FreezesArePunctual`). The same holds with stalls of the geometry
  FIFO as long as each ends within a tick of the FIFO having room
  (`PromptThawsArePunctual`), which the code ensures while no buffer swap comes in
  between (`StallsArePunctual`; its condition on DMA is met by any copy of one channel
  that takes at least a tick an entry, as a word of at most four commands does when it
  is read and written in two ticks each). With a swap the bound is false of the code:
  `SwapsDelayEvents` is a run from reset, of instructions of at most 24 ticks, in which
  a swap switches the geometry event off while the bus is still stalled; ARM9 thaws it
  on an idle jump of hundreds of ticks, and a timer that ARM7 sets meanwhile is 308
  ticks late. `EventsFallBehindIff` says for every state whether some script can make an
  event more than C late from there: ARM9 must have run more than C past the event while
  ARM7, short of it, idles. A run is within C as long as that never happens
  (`PunctualUntilOvertaken`), and within one idle jump always.
- **Memory.** The 2D renderer reads the display memory through the page tables of
  `Vram`; the text blitter keeps raw pointers inside a page, as the source does.
  Sprites are read there too, by mapped addresses or by pointers, as the source does.
- **Masks and shifts.** A mask by 2^n - 1 is written as a remainder, a right shift
  as a division that rounds down; words that wrap have an explicit modulus. The
  IPC registers are 16-bit vectors.
- **Unsigned 16-bit loops.** `renderline_textBG` compares columns after a cast to 16
  bits; `RenderLine` asks for lines short enough that x + 8 fits. No caller asks for
  more than 512 columns.

## Where the code is not what its names promise

- `read_timer` lags a cycle behind the counter, so it differs from the hardware
  exactly at the ticks where the counter steps (`Timers.ReadIsIdeal`). Read after its
  overflow but before its event it counts on from 0 instead of from its reload value
  (`Timers.OverdueReading`).
- `ObjExtPal[x][1]` is set from itself instead of from `ObjExtPal[x][0]`: the second
  half of the extended OBJ palettes is always blank memory
  (`Vram.SecondObjPaletteIsBlank`).
- A text line shorter than the rest of its first tile is drawn to the end of that
  tile (`TextBg.RenderLine`).
- In 256 colours a rotated window sprite is drawn as a picture, and in 16 colours it
  sets the object window only in front of the sprites before it
  (`Sprites.WindowSpriteIff`, `Sprites.ColumnInWindow`).
- The number of the sprite in a column is left over from another sprite, or an earlier
  line, where a 16-colour or rotated sprite is shown (`Sprites.ColumnShowsFront`).
- A rotated bitmap sprite in the 128-dot layout is read with rows as wide as the
  sprite, so only its first row is where a plain one has it
  (`Sprites.TurnedBitmapIff`).
- A successful IPC transfer clears the error bits of both CPUs
  (`IpcFifo.SuccessClearsErrors`).
- `armcpu_exception` never sets the F bit, which section A2.6 of the ARM Architecture
  Reference Manual asks for at reset and FIQ (`ArmBanks.ExceptionRefines`), and
  `armcpu_switchMode` tests all 8 bits of its argument but stores 5
  (`ArmBanks.BanksSurviveIff`). Both are latent in this program: it raises neither
  exception that way and passes 5-bit modes only.

## Model

| member | source | states |
|---|---|---|
| `SchedulerRuns.UnmovedEventIsPunctual` | source/NDSSystem.cpp:2150-2257 | main result: in any run from reset, the first poll at or after the time of an enabled event comes after finitely many iterations, and unless some call before its turn in that poll moves the event, it runs there: never early, at most one instruction late while the bus never freezes, one idle jump otherwise (strictly less if instructions schedule for later ticks only); whatever happens to the event afterwards, for every program and device behaviour |
| `SchedulerLimits.UnmovedEventsExist` | source/NDSSystem.cpp:2150-2257 | some run meets the hypotheses of that result, with an event that no call ever moves |
| `SchedulerRuns.UnmovedEventFires` | source/NDSSystem.cpp:1746-1810 | no event is lost: every programmed event that nothing moves before its turn runs in the first poll at or after its time, which comes after finitely many iterations, from any state |
| `SchedulerRuns.ClockReaches` | source/NDSSystem.cpp:2150-2257 | time goes on: from any state, the clock passes any given time after finitely many iterations |
| `SchedulerFreeze.FreezesArePunctual` | source/NDSSystem.cpp:1968-2091 | main result: however DMA freezes the bus, every event of every run is at most one instruction late and ARM9 leads ARM7 by at most that |
| `SchedulerFreeze.StallsArePunctual` | source/NDSSystem.cpp:1968-2091 | main result: the same with stalls of the geometry FIFO, for every script without buffer swaps whose ARM9 channels feed the FIFO no faster than an entry a tick, shared among them in any proportion, and are started by handlers through their triggers |
| `SchedulerFreeze.UnmovedEventOutlastsDma` | source/NDSSystem.cpp:2150-2257 | joined with the first result: however DMA freezes the bus, an event that nothing moves before its turn runs within one instruction of its time |
| `SchedulerFreeze.PromptThawsArePunctual` | source/NDSSystem.cpp:2003-2006 | the same for every script, as long as each time the CPUs run on a stalled bus whose FIFO has room again, the next event is at most a tick away |
| `SchedulerStall.SwapsDelayEvents` | source/NDSSystem.cpp:1998-2054 | and only so far: a run from reset whose instructions take at most 24 ticks, in which a buffer swap stops the geometry FIFO just as it has room again, and an ARM7 timer due at 440 runs at 748 |
| `SchedulerStall.ArmNineOvertakes` | source/NDSSystem.cpp:1998-2054 | so runs from reset do reach the states of `EventsFallBehindIff` |
| `SchedulerFreeze.StretchLeads` | source/NDSSystem.cpp:1973-2091 | CPU time leaves ARM9 at most one instruction ahead of ARM7 unless the bus thaws with the next event further than a tick away |
| `SchedulerFreeze.LeadingPass` | source/NDSSystem.cpp:1979-2072 | a pass keeps ARM9 within C of ARM7, or halted, or on a bus stuck for the whole stretch within the horizon |
| `SchedulerFreeze.FireReady` | source/gfx3d.cpp:2195-2250 | without swaps each handler keeps a stalled FIFO served: it has entries and a coming event while the bus waits for ARM9, and what DMA adds is paid for by the time it freezes the bus |
| `SchedulerFreeze.StretchReady` | source/NDSSystem.cpp:1982-2009 | so does CPU time: nothing runs before the idle turn of ARM9 that thaws the bus |
| `SchedulerFreeze.ReadyThaws` | source/NDSSystem.cpp:1290-1298 | such a bus, once no channel freezes it, has its next event at most a tick away |
| `SchedulerTimers.NoOverflowIsLost` | source/NDSSystem.cpp:1050-1100 | a timer whose period is longer than any instruction overflows exactly one period after the other in every run whose bus thaws at once, so each overflow is reported |
| `SchedulerTimers.NoOverflowIsLostToDma` | source/NDSSystem.cpp:1050-1100 | in particular however DMA freezes the bus, or if nothing does |
| `SchedulerRuns.CalmRunsArePunctual` | source/NDSSystem.cpp:1968-2091 | in every reachable state with a bus that never froze: every event so far ran 0 to C ticks after its time, the clock is the slower CPU clock, the CPU clocks differ by at most C, and every tick of both is executed or idle |
| `SchedulerRuns.AllRunsArePunctual` | source/NDSSystem.cpp:1952-2091 | whatever freezes the bus and whenever it thaws, lateness and drift stay within `Max(C, 4000)`; for runs with DMA, and for stalls that end at once, see the sharper results above |
| `SchedulerRuns.PromptRunsArePunctual` | source/NDSSystem.cpp:1968-2091 | lateness stays below C, and below `Max(C, 4000)` with a freezing bus, for every script whose instructions schedule events for later ticks only |
| `SchedulerLimits.ExactlyOneInstructionLate` | source/MMU.cpp:2631-2636 | the bound C is reached: in a run from reset, an instruction of C ticks that starts a DMA channel at once makes its event exactly C late, for every even C |
| `SchedulerRuns.ReachableSafe` | source/NDSSystem.cpp:2178-2257 | the whole invariant (anchored clock, drift, no overdue event, conserved cycles, punctual log) holds in every reachable state |
| `SchedulerRuns.RunSafe` | source/NDSSystem.cpp:2178-2257 | any number of iterations keeps the invariant |
| `SchedulerRuns.BootSafe` | source/NDSSystem.cpp:1337-1341 | the state after reset has it |
| `SchedulerProofs.IterateSafe` | source/NDSSystem.cpp:2178-2257 | one iteration of the NDS_exec loop keeps the invariant |
| `SchedulerProofs.StretchSafe` | source/NDSSystem.cpp:2208-2257 | so does its CPU part, roll-back of halted CPUs included |
| `SchedulerProofs.InnerSafe` | source/NDSSystem.cpp:1973-2091 | armInnerLoop from a paced state stops in one from which the roll-back restores the invariant |
| `SchedulerProofs.SoloSafe` | source/NDSSystem.cpp:2048-2056 | so does the recursive hand-over to ARM9 alone |
| `SchedulerProofs.BothTurns` | source/NDSSystem.cpp:1979-2063 | a pass moves the slower clock on, by at most C or within the horizon, and an event written in it lies no further back than D |
| `SchedulerProofs.IdleTurn7` | source/NDSSystem.cpp:2032-2043 | an idle ARM7 changes nothing but its own clock and idle count |
| `SchedulerProofs.HandOver` | source/NDSSystem.cpp:2041-2054 | an ARM7 that idles to the horizon leaves a state in which ARM9 alone is safe |
| `SchedulerProofs.KeepPace` | source/NDSSystem.cpp:1979-2072 | a pass without hand-over keeps both CPUs within D of the slower one, or halted within the horizon |
| `SchedulerProofs.SoloPass` | source/NDSSystem.cpp:1982-2009 | a pass of ARM9 alone keeps the solo invariant |
| `SchedulerProofs.Turn9Facts` | source/NDSSystem.cpp:1982-2009 | one turn of ARM9: an instruction costs at most C, events change only with a reschedule, idling changes neither, cycles are conserved |
| `SchedulerProofs.Turn7Facts` | source/NDSSystem.cpp:2010-2058 | the same for ARM7, whose cycles are two ticks |
| `SchedulerProofs.PollSafe` | source/NDSSystem.cpp:1746-1826 | a poll of all events keeps the invariant and the clock |
| `SchedulerProofs.FireSafe` | source/NDSSystem.cpp:1748-1810 | so does each handler, whatever it schedules |
| `SchedulerProofs.FindNextIsLeast` | source/NDSSystem.cpp:1721-1744 | findNext is the least time of the enabled events: a lower bound that is attained |
| `SchedulerRuns.Frame` | source/NDSSystem.cpp:2150-2257 | NDS_exec terminates: its loop always reaches the end of the frame, and the slower clock does not go back |
| `SchedulerRuns.IterateProgresses` | source/NDSSystem.cpp:2178-2257 | an iteration ends the frame, takes a display phase, moves the clocks toward the next one, or puts DMA channels in flight |
| `SchedulerRuns.IterateMovesOn` | source/NDSSystem.cpp:2178-2257 | an iteration moves the display on or the slower clock, or puts channels in flight: fewer are left that can trigger one another |
| `SchedulerRuns.StretchAdvances` | source/NDSSystem.cpp:2208-2257 | the CPU part moves the slower clock on whenever the horizon lies ahead, and leaves display and log alone |
| `SchedulerRuns.InnerAdvances` | source/NDSSystem.cpp:1973-2091 | so does the inner loop, handed over or not |
| `SchedulerRuns.PollClears` | source/NDSSystem.cpp:1746-1810 | after one poll only the display can still be due, and it moved exactly if it was due; or a copying channel has triggered one polled before it, and the idle channels, read as a binary number, have become fewer |
| `SchedulerRuns.PollCountsDown` | source/NDSSystem.cpp:1750-1787 | a due display event ends the frame or takes one of the remaining phases |
| `SchedulerRuns.PollRunsDueEvent` | source/NDSSystem.cpp:1746-1810 | a due event that nothing moves before its turn in the poll runs in it |
| `SchedulerRuns.IterateSpares` | source/NDSSystem.cpp:2178-2257 | an iteration whose poll does not find it due leaves an event alone that no call of it moves |
| `SchedulerRuns.InnerSpares` | source/NDSSystem.cpp:1973-2091 | CPU time leaves an event alone that none of its instructions moves; none can while the event ends a DMA freeze |
| `SchedulerRuns.CalmClockIsMonotone` | source/NDSSystem.cpp:2061-2072 | with a bus that never freezes the clock never goes back, over any number of iterations |
| `SchedulerRuns.ClockNeverGoesBack` | source/NDSSystem.cpp:2061-2072 | one iteration never sets the clock back unless ARM7 lags behind it |
| `SchedulerRuns.LaggingClockCanGoBack` | source/NDSSystem.cpp:2061-2072 | and with a running lagging ARM7, some script does set it back if and only if ARM7 lags by more than its cheapest instruction |
| `SchedulerLimits.HandOverJumps` | source/NDSSystem.cpp:2041-2054 | an idle ARM7 hands over to an ARM9 past the horizon, and the clock jumps over every event in between |
| `SchedulerLimits.ThawLeavesArm9Ahead` | source/NDSSystem.cpp:2003-2006 | a thawing bus takes ARM9 to the horizon, however far, while ARM7 runs its next instruction: the seventh iteration of that run |
| `SchedulerLimits.EventsFallBehindIff` | source/NDSSystem.cpp:2010-2054 | the exact condition, for every state: some script with instructions of at most C ticks makes the CPUs leave an enabled event more than C behind if and only if ARM9 is more than C past an event and ARM7, short of it, is halted, frozen or able to run one instruction and then idle (`Overtaken`) |
| `SchedulerLimits.PunctualUntilOvertaken` | source/NDSSystem.cpp:2178-2257 | however the bus freezes, a run keeps every event within C of its time as long as no CPU part starts `Overtaken` |
| `SchedulerLimits.OvertakenNeedsLead` | source/NDSSystem.cpp:2010-2054 | overtaking takes an ARM9 more than C ahead of ARM7 |
| `SchedulerLimits.StretchOnTime` | source/NDSSystem.cpp:2208-2257 | a state that is not `Overtaken` leaves no event behind, under any script |
| `SchedulerRuns.RelativeTimesAreSmall` | source/NDSSystem.cpp:2214-2217 | in every safe state the times relative to the clock are within D or 4000, so the casts to 32 bits lose nothing |
| `SchedulerMachine.Nds.NdsExec` | source/NDSSystem.cpp:2117-2257 | the imperative NDS_exec loop terminates and computes `Frame`, whose iterations wake, run and idle each CPU as the laws of `SchedulerWakes` say, on the raster of `RunOnRaster` |
| `SchedulerMachine.Nds.ExecIteration` | source/NDSSystem.cpp:2178-2257 | its body computes `Iterate` on the old state, interrupts included: it wakes exactly the CPUs of `Arm9RunsIff` and `Arm7RunsIff` |
| `SchedulerMachine.Nds.RunCpus` | source/NDSSystem.cpp:2208-2242 | the CPU part through 32-bit relative times computes `Inner` without overflow |
| `SchedulerMachine.Nds.ArmInnerLoop` | source/NDSSystem.cpp:1973-2091 | the loop on 32-bit times, with its recursive call, computes `Inner` |
| `SchedulerMachine.Nds.RunPass` | source/NDSSystem.cpp:1979-2072 | its body computes `Pass` and says whether ARM7 hands over |
| `SchedulerMachine.Nds.Advance9` | source/NDSSystem.cpp:1984-2007 | one turn of ARM9 on 32-bit times |
| `SchedulerMachine.Nds.Advance7` | source/NDSSystem.cpp:2012-2043 | one turn of ARM7 on 32-bit times |
| `SchedulerMachine.Nds.RollBackHalted` | source/NDSSystem.cpp:2245-2257 | the roll-back of halted CPUs |
| `SchedulerMachine.Nds.NextWork` | source/NDSSystem.cpp:1721-1744 | the scan of the table computes `Horizon` |
| `SchedulerMachine.Nds.ExecHardware` | source/NDSSystem.cpp:1746-1826 | the poll loop computes `Poll` |
| `SchedulerMachine.Nds.ExecDisplay` | source/NDSSystem.cpp:1748-1788 | the display event: four phases a line, line count, frame end, idle counters flushed at the vertical blank |
| `SchedulerMachine.Nds.ExecItem` | source/NDSSystem.cpp:1800-1810 | every other event |
| `SchedulerMachine.Nds.Execute3D` | source/gfx3d.cpp:2195-2250 | the event of the geometry FIFO in place: nothing while a swap is pending, else a batch of at most 127 entries and itself a tick later |
| `SchedulerMachine.Nds.ExecDma` | source/MMU.cpp:2424-2606 | the event of a DMA channel as the scheduler sees it: thaw, and perhaps a copy that feeds, writes, freezes and ends later |
| `SchedulerMachine.Nds.SendGx` | source/MMU.cpp:4270-4276 | feeding the FIFO: a port write at a full one stalls the bus, and its entry still goes in |
| `SchedulerMachine.Nds.RescheduleGx` | source/NDSSystem.cpp:1290-1298 | NDS_RescheduleGXFIFO adds up the costs of the entries |
| `SchedulerWakes.Arm9RunsIff` | source/NDSSystem.cpp:2202-2228 | in an iteration that gives the CPUs time on a bus that is not frozen, an ARM9 that is not ahead executes if and only if it was awake or an interrupt wakes it |
| `SchedulerWakes.Arm7RunsIff` | source/NDSSystem.cpp:2202-2228 | an ARM7 that is not ahead executes if and only if it was awake or woken, unless ARM9 runs first and stalls the bus at a FIFO of 255 entries |
| `SchedulerWakes.HaltedSleeps` | source/NDSSystem.cpp:2285-2306 | a halted CPU that no interrupt wakes executes nothing in an iteration, bus, events and the other CPU notwithstanding |
| `SchedulerWakes.FrozenBusRests` | source/NDSSystem.cpp:1982-2043 | neither CPU executes anything while DMA freezes the bus or a stalled FIFO is full |
| `SchedulerWakes.IdleTurns` | source/NDSSystem.cpp:1993-2043 | a halted or frozen CPU idles to the horizon, at most 4000 ticks at a time; only ARM9 ends a stall, and exactly when fewer than 255 entries are left |
| `SchedulerWakes.LastWriteCounts` | source/NDSSystem.cpp:1290-1308 | of all writes of one call to an event the last one decides: programmed at its time, cancelled, or triggered now unless it is already in flight |
| `SchedulerWakes.EventsAre` | source/NDSSystem.cpp:1746-1826 | what each of the nineteen other events does to itself, to the geometry FIFO and to the bus, by its place in the table: timers come again, the FIFO gives up to 127 entries, a DMA channel sets or clears its own freeze bit |
| `SchedulerWakes.RunOnRaster` | source/NDSSystem.cpp:1748-1788 | in every run from reset the display event stays on a raster of 4260 ticks a line, with its phases 12, 96 and 3204 ticks in, and 1120380 ticks a frame |
| `SchedulerWakes.Landmarks` | source/NDSSystem.cpp:1748-1788 | the frame ends at line 262 and nowhere else, a buffer swap exactly at line 192, and 12 ticks later the idle counters are flushed |
| `Timers.ReadAfterStart` | source/MMU.cpp:2083-2115 | a prescaled timer read k cycles after its start gives `reload + (k - 1) / scale`, for every k up to the overflow, and one below the reload value at k = 0 (0 if it is 0) |
| `Timers.ReadIsIdeal` | source/MMU.cpp:2083-2115 | that equals the real counter `reload + k / scale` if and only if k is not a multiple of the scale (or k and the reload are 0): the code lags by one cycle |
| `Timers.StopFreezesCount` | source/MMU.cpp:2117-2159 | stopping a timer keeps the count it had |
| `Timers.CatchUpKeepsPhase` | source/NDSSystem.cpp:1067-1077 | the catch-up loop leaves the least time past the clock that is congruent to the old one modulo the period |
| `Timers.OneOverflowPerEvent` | source/NDSSystem.cpp:1067-1077 | one event stands for one overflow if and only if it is less than a period late |
| `Timers.CarryCountsDown` | source/NDSSystem.cpp:1056-1100 | the count-up timers behind it form an odometer with the radices 65536 - reload: each overflow takes one off what is left, and wraps |
| `Timers.ChainRoundTrip` | source/NDSSystem.cpp:1056-1100 | after n overflows exactly n are gone, and a full turn restores the chain |
| `Timers.ChainIgnoresEarlier` | source/NDSSystem.cpp:1056-1100 | the odometer does not depend on the timers before it |
| `Timers.ExecIsOverflow` | source/NDSSystem.cpp:1050-1100 | the loop of exec is one overflow of the timer and one carry of the odometer, interrupts included |
| `Timers.LoopCarries` | source/NDSSystem.cpp:1056-1100 | its later turns are the carry, and stop at the first timer that is off or does not count up |
| `Timers.TimerUnit.Exec` | source/NDSSystem.cpp:1050-1100 | exec on the array of timers computes that, in place, and terminates |
| `Timers.TimerUnit.Write` | source/MMU.cpp:2117-2159 | write_timer changes one timer, as the register says |
| `Timers.TimerUnit.CatchUp` | source/NDSSystem.cpp:1067-1077 | the catch-up loop ends with `CaughtUp` |
| `Timers.ControlSelectsPrescaler` | source/MMU.cpp:2117-2159 | the two low bits of the control register make a started timer climb from its reload value every 2, 128, 512 or 2048 ticks; bit 2 makes it count overflows only |
| `Timers.OverdueReading` | source/MMU.cpp:2083-2115 | read between its overflow and its event a timer shows 65535 for one count and then counts from 0, not from its reload value |
| `Dma.NoBusDeadlock` | source/MMU.cpp:2424-2653 | main result: under every interleaving of register writes, triggers and events on all channels, whichever channel freezes the bus has a pending event, and so has every channel in flight that is not paused |
| `DmaScheduling.FreezeBoundsHorizon` | source/NDSSystem.cpp:1736-1738 | joined with the scheduler: while a channel freezes the bus, the CPUs get no time past the event of that channel |
| `DmaScheduling.FreezeEnds` | source/NDSSystem.cpp:1105-1170 | in every run from reset that event is run unless another handler moves it before its turn, since no instruction runs until then: at most one instruction late if only DMA freezes the bus, one idle jump otherwise |
| `DmaScheduling.EventKeepsCoupled` | source/MMU.cpp:2424-2496 | it then clears the channel's bit unless it starts another burst, and event table and freeze bits still show all eight channels, whatever the copy feeds, writes, or does to other channels |
| `DmaScheduling.CallKeepsCoupled` | source/MMU.cpp:2357-2422 | so they do after any instruction, display event or geometry event whose writes to the channels are register writes and triggers |
| `Dma.DoStaysAlive` | source/MMU.cpp:2424-2653 | each operation keeps that for its channel |
| `Dma.EventThaws` | source/MMU.cpp:2424-2496 | the event of a channel thaws the bus unless it starts another burst, whose end is then scheduled |
| `DmaBursts.FinishedTransfer` | source/MMU.cpp:2498-2606 | main result: a finished GX FIFO transfer copied exactly the address pairs of one plain loop, in order, in ceil(n/112) bursts of at most 112 words, and interrupted exactly once if asked |
| `DmaBursts.TransferStaysOnTrack` | source/MMU.cpp:2424-2653 | whatever events and triggers come, the words copied so far are a prefix of that loop and the count says how long |
| `DmaBursts.DrainedTransferFinishes` | source/MMU.cpp:2424-2606 | with the FIFO low at each event, one event per burst and one more finish the transfer |
| `DmaBursts.WriteStartsTransfer` | source/MMU.cpp:2357-2422 | programming an idle channel starts such a transfer |
| `DmaBursts.BurstKeepsTrack` | source/MMU.cpp:2498-2606 | one burst continues the loop where the last one stopped |
| `DmaBursts.EventKeepsTrack` | source/MMU.cpp:2424-2496 | so does every event: burst, pause or stop |
| `DmaBursts.WordsJoin` | source/MMU.cpp:2554-2584 | two loops, the second from where the first stopped, are one loop |
| `DmaMachine.DmaController.Exec` | source/MMU.cpp:2424-2496 | the method computes `Dma.Exec` on the old registers |
| `DmaMachine.DmaController.DoCopy` | source/MMU.cpp:2498-2606 | so does doCopy, for `Dma.DoCopy` |
| `DmaMachine.DmaController.CopyLoop` | source/MMU.cpp:2554-2584 | the loop with 32-bit increments makes the `todo` words of the reference loop |
| `DmaMachine.DmaController.Write32` | source/MMU.cpp:2357-2422 | the control word is taken apart, addresses latched and an event scheduled as `Dma.Write32` says |
| `DmaMachine.DmaController.TryTrigger` | source/MMU.cpp:2619-2629 | the method computes `Dma.TryTrigger` on the old registers: taken only by an enabled channel of that mode that is not in flight, which then copies at its event (`TriggerCopies`) |
| `DmaMachine.DmaController.DoStop` | source/MMU.cpp:2645-2655 | the end of a transfer: not running, disabled unless repeating, one interrupt if asked |
| `DmaTriggers.TriggeredTransfer` | source/MMU.cpp:2357-2653 | main result: the whole life of a channel programmed by one control word for any start mode that needs a trigger, and not repeating: its first event copies nothing, the event after the trigger copies the full count from the addresses written before, and the last one leaves it off, with one interrupt if asked |
| `DmaTriggers.TriggerCopies` | source/MMU.cpp:2424-2653 | after a trigger of its mode, the next event of any enabled idle channel copies its full count from its latched addresses, for every start mode |
| `DmaTriggers.UntriggeredCopiesIff` | source/MMU.cpp:2460-2480 | untriggered, that event copies if and only if the mode is the immediate one, or the geometry FIFO's with at most 127 entries |
| `DmaTriggers.PausesIff` | source/MMU.cpp:2424-2495 | the event of a geometry FIFO transfer with words left copies the next ones if and only if the FIFO has at most 127 entries; else the channel pauses and forgets its trigger |
| `DmaTriggers.OtherTriggersAreIgnored` | source/MMU.cpp:2619-2629 | a trigger of another mode, of a channel that is off or of one in flight changes nothing |
| `DmaTriggers.EndSwitchesOff` | source/MMU.cpp:2645-2655 | the event at the end of a transfer switches the channel off unless it repeats, thaws the bus and interrupts once if asked |
| `DmaTriggers.ControlWord` | source/MMU.cpp:2357-2422 | the fields of a control word by their bit positions |
| `DmaTriggers.ControlStarts` | source/MMU.cpp:2357-2422 | switching a channel on latches both addresses and clears its trigger, and its event comes now unless it was on already in a mode that waits for triggers |
| `DmaTriggers.CopyIs` | source/MMU.cpp:2498-2606 | a copy makes the address pairs of the asked steps, wrapped to 32 bits, in the number its start mode gives; what it leaves in the registers |
| `VramMachine.VramControl.MapControl` | source/MMU.cpp:841-953 | main result: after any bank-control write all tables equal the functions of the current nine registers (`Valid`), whatever came before; in addresses that is the map of `BanksAreWhereTheyBelong` |
| `VramMachine.VramControl.constructor` | source/MMU.cpp:1109-1116 | so they do after reset |
| `VramMachine.VramControl.RefreshArm9` | source/MMU.cpp:566-809 | a bank overwrites exactly the ARM9 pages it claims, which are its homes in `OneBank` |
| `VramMachine.VramControl.RefreshOthers` | source/MMU.cpp:566-809 | and the LCDC and ARM7 entries it claims, and the texture and palette slots |
| `VramMachine.VramControl.RefreshSlots` | source/MMU.cpp:604-793 | slot by slot, the textures and palettes a bank sets |
| `VramMachine.VramControl.MirrorRegion` | source/MMU.cpp:889-953 | mirroring copies the mappable area of a region over the rest of it |
| `VramMachine.VramControl.MapForArm9` | source/MMU.cpp:450-505 | the lookup through the tables is `Arm9Map` of the registers, every index in bounds |
| `VramMachine.VramControl.MapForArm7` | source/MMU.cpp:450-505 | the same for ARM7 |
| `VramMachine.VramControl.MapForGpu` | source/MMU.h:596-615 | the same for the GPU |
| `Vram.LastClaimantWins` | source/MMU.cpp:874-887 | in the order I, H, G, F, E, A, B, C, D the last bank that claims a page has it |
| `Vram.NoClaimantLeavesBlank` | source/MMU.cpp:811-839 | a page that no bank claims is blank |
| `Vram.RegionsArePeriodic` | source/MMU.cpp:889-953 | each 128-page region repeats with period 32, 8, 16 or 8 |
| `Vram.PlacementsFit` | source/MMU.cpp:566-809 | no bank reaches beyond the mappable area of its region |
| `Vram.CpuAndGpuAgree` | source/MMU.cpp:450-505 | ARM9 finds a BG or OBJ address unmapped if and only if the GPU reads the blank page there, and otherwise both find the same byte |
| `Vram.MappedIsInside` | source/MMU.cpp:450-505 | every mapped address of either CPU lies inside the 0xA4000 bytes of display memory |
| `Vram.ObjPaletteA` | source/MMU.cpp:737-738 | which bank serves the OBJ palettes of engine A |
| `Vram.SecondObjPaletteIsBlank` | source/MMU.cpp:737-738 | a bank given to them never serves the second half: the two slots are the two halves of a bank if and only if there is no such bank |
| `VramPlaces.BanksAreWhereTheyBelong` | source/MMU.cpp:566-809 | main result: for all nine registers together and every address from 0x06000000 to 0x067FFFFF, ARM9 and the GPU find the byte that the memory map names in literal addresses (each bank, purpose and offset, the double homes of F to I, the order of overlaps, the repetition of the areas), and nothing where it names none |
| `VramPlaces.OneBank` | source/MMU.cpp:566-809 | with one bank in use that is the home of this bank alone |
| `VramPlaces.LcdcIsInPlace` | source/MMU.cpp:566-602 | from 0x06800000 on ARM9 sees exactly the banks of purpose 0, each at its own place |
| `VramPlaces.LcdcTail` | source/MMU.cpp:450-505 | beyond them every address stands for the first byte of bank A or of bank E |
| `VramPlaces.Arm7Windows` | source/MMU.cpp:450-505 | ARM7 sees bank D, else C, in the 128 KB window that its offset names, and no other bank |
| `VramPlaces.TexturesAre` | source/MMU.cpp:604-645 | each texture slot holds the last of the banks A to D given to it |
| `VramPlaces.TexturePalettesAre` | source/MMU.cpp:676-720 | texture palettes: bank E in four slots, else F or G in slot 0, 1, 4 or 5 |
| `VramPlaces.BgPalettesAre` | source/MMU.cpp:683-733 | extended background palettes of engine A: half of bank E, else F or G in two slots each |
| `VramPlaces.EngineBPalettesAre` | source/MMU.cpp:760-794 | extended palettes of engine B: bank H for backgrounds, bank I for sprites |
| `VramPlaces.SpritePaletteIs` | source/MMU.cpp:737-738 | the sprite palette slot of engine A: bank F, else G |
| `Wram.SharedIsDisjoint` | source/MMU.cpp:390-448 | no byte of shared RAM is in reach of both CPUs |
| `Wram.SharedIsCovered` | source/MMU.cpp:390-448 | every byte of it is in reach of one |
| `Wram.CpusAreIsolated` | source/MMU.cpp:390-448 | no sequence of writes by one CPU through its window changes what the other reads |
| `Wram.OwnWriteReadsBack` | source/MMU.cpp:390-448 | while it reads back its own |
| `Wram.WindowsAre` | source/MMU.cpp:390-448 | for each of the four settings, the byte that each CPU reaches through its window, in literal offsets |
| `TextBg.RenderLine` | source/GPU.cpp:954-1089 | main result: every plot of the line is the per-pixel definition of its column, in order, each once, in 16 and 256 colours, and there are exactly `len` of them if and only if `len` is 0 or at least 8 - hofs % 8 (the first tile is not cut; then 8 - hofs % 8); what that definition reads, in bits and bytes, is said by `PixelComesFrom`, `TileBytes` and the flip laws |
| `TextBg.BlitLine` | source/GPU.cpp:987-1088 | the outer loop over tiles |
| `TextBg.BlitTile16` | source/GPU.cpp:989-1048 | one tile in 16 colours plots its dots from the scroll position on, flipped as `HorizontalFlip` and `VerticalFlip` say |
| `TextBg.BlitFlipped` | source/GPU.cpp:1003-1024 | the nibble loop of a flipped tile, right to left, odd starts included |
| `TextBg.BlitPlain` | source/GPU.cpp:1025-1046 | the nibble loop left to right |
| `TextBg.BlitTile256` | source/GPU.cpp:1061-1088 | one tile in 256 colours, flipped the same way |
| `TextBg.ReadEntry` | source/GPU.cpp:994-997 | the map entry read through two wrap tests is the entry of the screen the dot lies in |
| `TextBg.EntryAddress` | source/GPU.cpp:975-997 | the two-step address computation is the address in a map made of 2 KB screens |
| `TextBg.TileOfLine` | source/GPU.cpp:989-1048 | the dots of a tile are the pixels of the line they fall on |
| `TextBg.TilePixel` | source/GPU.cpp:989-1001 | neighbouring pixels of one tile are dots of one map entry |
| `TextBg.RowWithin` | source/MMU.h:596-615 | a pointer moved along a line of a tile stays in its page, so it reads what mapping each byte would |
| `TextBg.BackgroundWraps` | source/GPU.cpp:959-964 | scrolling by the size of the background changes no pixel |
| `TextBg.PlaceLayer` | source/GPU.cpp:424-462 | the bases GPU_setBGProp stores are aligned as the blitter relies on |
| `TextTiles.HorizontalFlip` | source/GPU.h:421-426 | a map entry with bit 10 set shows at column c what the plain one shows at 7 - c, in both colour modes |
| `TextTiles.VerticalFlip` | source/GPU.h:421-426 | bit 11 does that for rows |
| `TextTiles.PaletteBits` | source/GPU.h:421-426 | bits 12 to 15 move the colour by palettes of 16, or of 256 with extended palettes, and nothing else |
| `TextTiles.TileBytes` | source/GPU.cpp:989-1088 | the low ten bits select 64 bytes of one dot each, or 32 bytes of two dots with the left one in the low half |
| `TextTiles.PixelComesFrom` | source/GPU.cpp:959-997 | a pixel is the dot of the entry at its place in a map of up to four screens of 256 by 256 dots, for each of the four sizes |
| `TextTiles.TilesOfEngineA` | source/GPU.cpp:424-462 | joined with the memory map: with bank A given to engine A, tile bytes come from that bank, at the block and base of the registers |
| `TextTiles.MapOfEngineA` | source/GPU.cpp:424-462 | so do map bytes |
| `TextTiles.BankOfEngineB` | source/GPU.cpp:424-462 | with bank C given to engine B both come from bank C, and blocks are ignored |
| `Affine.RotScale` | source/GPU.cpp:1143-1195 | main result: for every start, step, length and size up to 1024 the renderer makes exactly the calls of the definition, whether it takes the shortcut or not |
| `Affine.Unrotated` | source/GPU.cpp:1155-1172 | the unrotated shortcut makes the same calls |
| `Affine.General` | source/GPU.cpp:1174-1194 | and so does the general loop on 32-bit coordinates |
| `Affine.CallsAreDots` | source/GPU.cpp:1174-1194 | a call is made for a column exactly when its dot, wrapped or not, lies inside |
| `Affine.NextDot` | source/GPU.h:435-445 | the 20-bit signed field counts columns modulo the size even where it overflows |
| `Affine.StepKeeps` | source/GPU.h:435-445 | a 32-bit step is the step of the unbounded coordinate as far as the field shows |
| `Affine.RotLayer.LineRot` | source/GPU.cpp:1282-1306 | over a frame, column i of line j shows the point x0 + i*PA + j*PB, y0 + i*PC + j*PD |
| `Affine.CallsOfWord` | source/GPU.cpp:1282-1306 | registers equal as 32-bit words make the same calls |
| `Affine.CoordinateIs` | source/GPU.h:435-445 | a coordinate of n dots and a fraction lies on dot n, for every signed 20-bit n, taken modulo the size where the background wraps |
| `Affine.ColumnsAreSteps` | source/GPU.cpp:1174-1194 | each column is one step further along |
| `Sprites.ColumnShowsFront` | source/GPU.cpp:1345-1428 | main result: each column holds the colour of the sprite least by priority, then by place in the table, among those with a dot there, and its number if it is a plain bitmap or 256-colour sprite; and the backdrop if there is none |
| `Sprites.ColumnInWindow` | source/GPU.cpp:1430-1451 | the object window is set by any dot of a plain window sprite, and by one of a rotated one if it is in front of the sprites drawn before |
| `Sprites.TexelInside` | source/GPU.cpp:1456-1503 | a plain sprite is read inside its own texels |
| `SpriteMachine.SpriteRender` | source/GPU.cpp:1537-1863 | drawing all 128 sprites in place leaves `Column` in every column |
| `SpriteMachine.ComputeSpriteVars` | source/GPU.cpp:1454-1503 | a sprite is drawn if and only if it covers a column of the line; the clipped range is exactly the columns it covers, inside 0..255, and the walk follows its texels, flipped or not |
| `SpriteMachine.ComputeTurnedVars` | source/GPU.cpp:1576-1638 | the same for a rotated sprite, with the fixed-point start moved to the first column |
| `SpriteMachine.SourceRow` | source/GPU.cpp:1794-1810 | the start of a row of texels in the four layouts is tiles, rows of tiles and lines of a tile |
| `SpriteMachine.BmpAddress` | source/GPU.cpp:1510-1531 | the row of a bitmap in the three layouts is so many dots below its origin |
| `SpriteMachine.TileOffset` | source/GPU.cpp:1658-1663 | the offset of a texel of a rotated sprite, in the four layouts |
| `SpriteMachine.TileOffsets` | source/GPU.cpp:1380-1410 | the shifts and masks of the renderers select tile, line and byte |
| `Sprites.PointerInPage` | source/MMU.h:596-615 | the pointers of window and rotated sprites read what mapping each address would, up to the end of the page |
| `Sprites.TurnedBitmapIff` | source/GPU.cpp:1701-1709 | a rotated bitmap is read where a plain one is, if and only if the layout is not the 128-dot one or the dot is in the first row |
| `Sprites.WindowSpriteIff` | source/GPU.cpp:1641-1672 | an opaque dot of a window sprite belongs to the object window if and only if the sprite is not both rotated and in 256 colours; then it is drawn as a picture |
| `SpriteMachine.TurnedAlong` | source/GPU.cpp:1612-1638 | that start is the rotation about the centre of the field |
| `SpriteMachine.DrawPlain` | source/GPU.cpp:1789-1861 | one plain sprite puts its offer in every column |
| `SpriteMachine.DrawTurned` | source/GPU.cpp:1569-1787 | one rotated sprite puts its offer in every column |
| `SpriteMachine.Render256` | source/GPU.cpp:1371-1399 | the loop of render_sprite_256, every byte mapped, with the number of the sprite |
| `SpriteMachine.Render16` | source/GPU.cpp:1401-1428 | the loop of render_sprite_16, half a byte a texel |
| `SpriteMachine.RenderBmp` | source/GPU.cpp:1345-1369 | the loop of render_sprite_BMP, with the number of the sprite |
| `SpriteMachine.RenderWin` | source/GPU.cpp:1430-1451 | the loop of render_sprite_Win, through a pointer to the row |
| `SpriteMachine.Turn16` | source/GPU.cpp:1732-1786 | the rotated 16-colour loop |
| `SpriteMachine.Turn256` | source/GPU.cpp:1641-1682 | the rotated 256-colour loop |
| `SpriteMachine.TurnBmp` | source/GPU.cpp:1684-1731 | the rotated bitmap loop |
| `SpriteFormats.VideoPropConfigures` | source/GPU.cpp:389-412 | every value of DISPCNT sets up the renderer as its precondition asks |
| `SpriteFormats.SizesAre` | source/GPU.cpp:68-74 | the twelve sizes of a sprite in dots |
| `SpriteFormats.CoveredAre` | source/GPU.cpp:1454-1503 | which columns and lines a sprite covers, around line 256, hidden or in a doubled field |
| `SpriteFormats.NothingOutside` | source/GPU.cpp:1454-1503 | and it offers nothing outside them |
| `SpriteFormats.MirrorsAre` | source/GPU.cpp:1486-1501 | a mirrored sprite shows at a column, or line, the texel the plain one shows opposite |
| `SpriteFormats.CentreIsFixed` | source/GPU.cpp:1612-1638 | whatever the parameters of a rotation, the centre of the field shows the centre of the sprite |
| `SpriteFormats.ParametersStep` | source/GPU.cpp:1576-1638 | from there the four parameters, each from its own table entry, lead to the next column and the next line |
| `SpriteFormats.IdentityIsPlain` | source/GPU.cpp:1576-1638 | a rotated sprite with the identity as parameters shows the texel under the column |
| `SpriteFormats.QuarterTurn` | source/GPU.cpp:1576-1638 | with a quarter turn columns run along the height and lines against the width, of which the first falls outside |
| `SpriteFormats.DoubleIsCentred` | source/GPU.cpp:1576-1638 | in a doubled field the unturned sprite lies in the middle |
| `SpriteFormats.TexelBytes` | source/GPU.cpp:1380-1451 | the byte or half byte of each texel in the four picture layouts, plain, in the object window and rotated |
| `SpriteFormats.BitmapDots` | source/GPU.cpp:1510-1531 | the two bytes of each dot in the three bitmap layouts, plain and rotated |
| `SpriteFormats.SpritesOfBanks` | source/MMU.h:596-615 | joined with the memory map: with bank A given to the sprites of engine A, or D to those of engine B, every byte comes from that bank |
| `SpriteFormats.PicturesAre` | source/GPU.cpp:1345-1428 | the colour, alpha and kind that a texel is drawn with, in each mode, and when it is transparent |
| `SpriteFormats.TurnedPicturesAre` | source/GPU.cpp:1641-1786 | where a rotated sprite draws differently: no number, and the plain palette field as alpha |
| `SpriteFormats.PuttingIs` | source/GPU.cpp:1345-1428 | a dot replaces all but the window bit, and the number where it is noted, exactly in front of the one before |
| `SpriteFormats.NobodyThere` | source/GPU.cpp:2021-2057 | where no sprite has anything the column is as the line began |
| `SpriteFormats.FrontIsUnique` | source/GPU.cpp:1345-1428 | the sprite of `Sprites.ColumnShowsFront` is the only one |
| `Layers.Compositor.RenderLine` | source/GPU.cpp:2021-2131 | main result: the last writer of every column is the enabled layer in front: least by priority, sprites before backgrounds, then by number; the backdrop if there is none |
| `Layers.Compositor.ResortBGs` | source/GPU.cpp:250-303 | the lists hold the enabled backgrounds of each priority, the highest number first, a layer is on when its tick box and its register agree, and background 0 is first when no enabled one has a lower priority number |
| `Layers.LineShowsFront` | source/GPU.cpp:2070-2131 | painting from the back leaves the layer in front |
| `Layers.ListLeavesLowest` | source/GPU.cpp:2075-2118 | one list leaves its lowest-numbered painter on top |
| `Layers.FrontIsUnique` | source/GPU.cpp:2070-2131 | there is only one such layer |
| `Layers.SpriteOnTop` | source/GPU.cpp:2036-2131 | a column that shows a sprite shows the front sprite of `Sprites`, and no background dot there has a lower priority number |
| `Layers.Compositor.SortPixels` | source/GPU.cpp:2048-2057 | the sprite dots are sorted by priority |
| `Layers.WhoIsSeen` | source/GPU.cpp:2070-2131 | who is seen at a column, if and only if, in the priorities themselves: sprite, each background, or backdrop |
| `Window.Windows.BeginLine` | source/GPU.cpp:2576-2580 | main result: after the start of a line both masks are the definition of the windows, whatever was written before |
| `Window.Windows.Check` | source/GPU.cpp:523-575 | a layer is drawn, and shaded, as the register of the first window the dot lies in says; without windows nothing changes |
| `Window.Rect.Update` | source/GPU.cpp:2429-2476 | a clear flag implies that the cached columns are the span, and a window that is off stays stale |
| `Window.Rect.constructor` | source/GPU.cpp:205-207 | GPU_Reset clears flag, cache and registers, which agree |
| `Window.Rect.Setup` | source/GPU.cpp:2392-2427 | the vertical test |
| `Window.Rect.SetH` | source/GPU.h:968-982 | a write of the horizontal span marks the cache stale |
| `Window.Rect.SetEnabled` | source/GPU.cpp:358-368 | switching a window keeps the cache invariant |
| `Window.SpanIsCyclic` | source/GPU.cpp:2451-2476 | the span is a walk around the 256 positions, with the end included when it wraps |
| `Window.BitsMakeRegister` | source/GPU.cpp:523-575 | the low six bits of a window register are the flags of the four backgrounds, the sprites and the effects |
| `IpcFifo.RunsAreFaithful` | source/FIFO.cpp:35-164 | main result: under any interleaving by both CPUs, what was sent is what was received followed by what is queued, and the four flags of both registers are true |
| `IpcFifo.StepIsFaithful` | source/FIFO.cpp:41-164 | each operation keeps that |
| `IpcFifo.ResetIsFaithful` | source/FIFO.cpp:35-39 | so does reset |
| `IpcFifo.SendIsAppend` | source/FIFO.cpp:41-79 | a send appends to the queue unless disabled or full |
| `IpcFifo.RecvIsPop` | source/FIFO.cpp:81-124 | a receive takes the first word unless disabled or empty |
| `IpcFifo.ControlKeepsQueues` | source/FIFO.cpp:126-164 | a control write keeps the queues, or empties the sender's |
| `IpcFifo.FailureOnlySetsError` | source/FIFO.cpp:47-52 | a send when full or a receive when empty changes only the caller's error bit |
| `IpcFifo.SuccessClearsErrors` | source/FIFO.cpp:59-60 | a transfer that succeeds clears the error bits of both CPUs |
| `IpcFifo.PutAppends` | source/FIFO.cpp:61-64 | the ring with its wrapping tail is a queue |
| `IpcFifo.TakeDropsFirst` | source/FIFO.cpp:101-104 | and with its wrapping head |
| `IpcMachine.IpcUnit.Send` | source/FIFO.cpp:41-79 | the method computes `IpcFifo.Send` on the old rings and registers |
| `IpcMachine.IpcUnit.Recv` | source/FIFO.cpp:81-124 | and `IpcFifo.Recv`, with the word returned |
| `IpcMachine.IpcUnit.Control` | source/FIFO.cpp:126-164 | and `IpcFifo.Control` |
| `IpcFifo.RegisterBits` | source/FIFO.cpp:35-164 | what the bits of a register say: own queue empty or full in bits 0 and 1, the other queue in bits 8 and 9, error in bit 14, enable in bit 15 |
| `IpcFifo.ControlBits` | source/FIFO.cpp:126-164 | which bits a control write sets, clears and keeps |
| `IpcFifo.ControlInterrupts` | source/FIFO.cpp:126-164 | exactly which control writes raise the send-empty or the receive-not-empty interrupt |
| `IpcFifo.TransferInterrupts` | source/FIFO.cpp:41-124 | exactly which transfers interrupt the other side |
| `Sqrt.Isqrt` | source/MMU.cpp:70-135 | main result: for every 64-bit x the loop returns the root with root^2 <= x < (root + 1)^2, below 2^32 |
| `Sqrt.StepKeepsInv` | source/MMU.cpp:122-132 | one turn of the loop finds one bit: the or of root and bit is the odd term of the square |
| `Sqrt.OrAdds` | source/MMU.cpp:123-126 | a bit joined to a multiple of twice its weight adds up |
| `Sqrt.RootIsUnique` | source/MMU.cpp:70-135 | the root is determined by x |
| `Sqrt.SqrtUnit.Start` | source/MMU.cpp:1158-1196 | a request schedules the exact root of its argument, through any history of the memo table, and enters it |
| `Sqrt.SqrtUnit.Finish` | source/NDSSystem.cpp:1218-1223 | the end of the computation shows the scheduled result |
| `Sqrt.ZeroMarksAbsence` | source/MMU.cpp:1167-1172 | 0 is the root of 0 only, so it can mark an absent entry |
| `ArmBanks.RunRefines` | source/armcpu.cpp:291-571 | main result: over any run of mode switches, register and status writes and exceptions, every register read is the one of the architecture's banked register file, and the files are equal but for F bits, without resets and FIQs in these too; by mode numbers the file keeps the modes apart (`OthersLeaveAlone`) |
| `ArmBanks.SwitchKeepsFile` | source/armcpu.cpp:291-398 | a switch between any two of the 32 modes loses and mixes no register, FIQ's R8 to R12 and the SPSRs included; which are shared is `SwitchShares` |
| `ArmBanks.StepRefines` | source/armcpu.cpp:291-571 | each operation is the one of the file, exactly unless it is a reset or FIQ entry with F clear |
| `ArmBanks.CoreShowsMode` | source/armcpu.cpp:291-398 | R0 to R15 of the core are what the mode selects |
| `ArmBanks.IrqRefines` | source/armcpu.cpp:542-571 | interrupt entry alters only R14 and SPSR of IRQ mode among all banks, and saves the interrupted CPSR there |
| `ArmBanks.ExceptionRefines` | source/armcpu.cpp:510-540 | the other exceptions do what section A2.6 asks if and only if the exception leaves F alone or F was set: the code never sets F |
| `ArmBanks.StepKeepsAlike` | source/armcpu.cpp:291-571 | no other bit depends on the F bits |
| `ArmBanks.ThereAndBack` | source/armcpu.cpp:291-398 | a visit to any mode and back restores all visible registers, and the SPSR of a mode that has one |
| `ArmBanks.BanksSurviveIff` | source/armcpu.cpp:343-395 | every switch argument keeps the banks if and only if it is below 0x20 or no mode in its low five bits |
| `ArmMachine.ArmCpu.SwitchMode` | source/armcpu.cpp:291-398 | the method computes `Switch` on the old fields, which shares and separates the registers as `ModeFindsItsOwn` and `SwitchShares` say, and returns the old mode |
| `ArmMachine.ArmCpu.IrqException` | source/armcpu.cpp:542-571 | and the interrupt entry |
| `ArmMachine.ArmCpu.RaiseException` | source/armcpu.cpp:510-540 | and the other exceptions |
| `ArmSeparation.OthersLeaveAlone` | source/armcpu.cpp:291-571 | main result, in mode numbers: any run of operations in modes apart from a mode, exceptions included, leaves what that mode sees of R13, R14 and SPSR; any two modes are apart but User and System |
| `ArmSeparation.ModeFindsItsOwn` | source/armcpu.cpp:291-571 | so a mode left and entered again, whatever ran meanwhile elsewhere, finds all three as it left them |
| `ArmSeparation.SwitchShares` | source/armcpu.cpp:291-398 | a switch moves R8 to R12 exactly if FIQ is left or entered, R13 and R14 at most between modes apart, and never the others |
| `ArmSeparation.FastRegistersApart` | source/armcpu.cpp:291-398 | a write of R8 to R12 in one mode is seen in another exactly if both or neither are FIQ |
| `ArmSeparation.ExceptionsEnter` | source/armcpu.cpp:510-540 | mode number, link, saved status, vector and mask bits of each exception |
| `ArmSeparation.InterruptsEnter` | source/armcpu.cpp:542-571 | and of an interrupt, which also ends the wait |

## Left out

- Instruction semantics, the JIT, the coprocessor, the 3D engine's work, sound, SPI, touch screen, wifi, slot devices, save states and ROM loading.
- The paths of `armInnerLoop` for the PSP media engine, the developer build, the debugger stalls and the experimental wifi event.
- The sleep mode of `NDS_exec` and what it does at the end of a frame after its loop.
- The wrap-around of the 64-bit clocks.
- Timers.TimerUnit.Write: writing a running cascade timer shifts by 65535 in the source, which C++ leaves undefined; the model takes an arbitrary cycle there.
- SchedulerTimers.NoOverflowIsLost: the scheduler model takes the next overflow of a timer from its script; that it is the one the catch-up loop computes, and that no register write comes between, is a hypothesis on the log (`Reloads`).
- DmaMachine.DmaController.DoCopy: the words moved are address pairs; memory contents and access times are not modelled (the time of a copy is a parameter), nor is the read-back of the control register.
- DmaScheduling.EventKeepsCoupled: a copy that writes the registers of its own channel is left out. That each call keeps channels and event table coupled is stated call by call, not composed over a run.
- SchedulerFreeze.StallsArePunctual: a DMA copy into a DMA control register and scripts with buffer swaps are outside it; with swaps the bound is false, see `SwapsDelayEvents`.
- The clearing of the geometry FIFO (`GFX_FIFOcnt`), which nothing calls.
- DmaBursts.FinishedTransfer: assumes 1 to 0x1FFFFF words, no repeat, an address mode other than 3 and no register write during the transfer; a count of 0 wraps, and mode 3 restarts the destination every burst.
- VRAM: the log text of the bank configuration and the signal to the 3D engine when textures move.
- Text backgrounds: mosaic; the final pixel write (windows, blending) is a log of plots.
- Affine: which pixel function is called, and what it reads, after the coordinates are known; the 32-bit overflow of a coordinate is taken to wrap.
- SpriteMachine.SpriteRender: the five line buffers of the source are one array of records; mosaic is left out. The OBJ area is set up as GPU_setVideoProp does it, not as the reset leaves it.
- Layers.Compositor.RenderLine: 3D as background 0, blending and the display capture; a layer that the windows reject at a column counts as transparent there.
- Window.Windows.Check: the special effects themselves.
- IPC: raw byte writes to the control register.
- Sqrt: the 32-bit mode, which uses a floating-point root and shares the memo table.
- ArmBanks: the SPSR of User and System mode, which do not have one; the prefetch after an interrupt; the reschedule on a status change; the reserved vector, which stops the emulator.
- The cache controller (compiled out), SPU mixing (floating point) and GPU_GU.cpp (a near copy of GPU.cpp).
