/**
 The event scheduler and the two-CPU interleaver of source/NDSSystem.cpp, as
 functions on one immutable machine state.

 Time is a plain integer here; the class in SchedulerMachine.dfy runs the same
 steps on 32-bit times relative to a base, as the source does, and is proved
 to compute these functions.

 What an instruction or a hardware event does is not modelled: every call of
 armcpu_exec, every event handler and every interrupt poll takes its effect
 from a script (`Oracle`).  Theorems that hold for every script hold for every
 program and every device behaviour.
 */
module SchedulerModel {

  /** Longest stretch of time given to the CPUs between two event polls. */
  const MAX_WORK := 4000
  /** Longest idle jump of a halted or frozen CPU. */
  const IRQ_WAIT := 4000

  // Positions in the event table, in the order in which a poll visits them.
  const DISPLAY := 0
  const GX_FIFO := 3      // 1 and 2 are the square-root and division units
  const TIMER_0 := 4      // four timers of each CPU
  const DMA_0 := 12       // four DMA channels of each CPU, ARM9 first
  const ITEMS := 20

  /** A write to a geometry command port stalls the bus from this length on. */
  const FIFO_FULL := 255
  /** The most entries that one geometry event takes from the FIFO. */
  const FIFO_BATCH := 127

  // Scanlines in a frame, and the two lines at which something happens.
  const LINES := 263
  const VBLANK_LINE := 192
  const LAST_LINE := 262

  function Min(a: int, b: int): int { if a < b then a else b }

  function Max(a: int, b: int): int { if a < b then b else a }

  /** A change to the event table: program an event relative to the current time,
      start a DMA channel at once unless it is in flight, or switch an event off. */
  datatype Write = Program(item: nat, delay: nat) | Trigger(item: nat) | Cancel(item: nat)

  /** What is fed into the geometry FIFO: how many entries, whether some are written
      to the command ports, and how many of them precede the last such write. */
  datatype Feed = Feed(sent: nat, port: bool, before: nat)

  const NO_FEED := Feed(0, false, 0)

  /** The effect of one call of armcpu_exec; its cost is 1 + extra.  Only ARM9 can
      feed the geometry FIFO. */
  datatype Exec = Exec(extra: nat, halts: bool, feed: Feed, reschedules: bool, writes: seq<Write>)
  {
    function Cost(): nat { extra + 1 }
  }

  /** The effect of one event handler.  A timer reprograms itself `extra + 1` cycles
      ahead.  A DMA channel may copy, for a time in which an ARM9 channel freezes the
      bus; what it copies may feed the geometry FIFO and write the event table.  The
      geometry event may execute a buffer swap and start DMA channels. */
  datatype Reaction = Reaction(extra: nat, copies: bool, takes: nat, feed: Feed, swaps: bool, writes: seq<Write>)

  /** The outcome of one interrupt poll: which CPUs leave their halt. */
  datatype Wake = Wake(arm9: bool, arm7: bool)

  /** A script, by the number of the call; a handler also knows its event. */
  datatype Oracle = Oracle(
    arm9: nat -> Exec, arm7: nat -> Exec,
    display: nat -> seq<Write>, hardware: (nat, nat) -> Reaction, interrupts: nat -> Wake)

  /** One CPU.  `idle` is the counter that the source resets once a frame;
      `flushed` sums what those resets threw away. */
  datatype Cpu = Cpu(clock: int, halted: bool, executed: int, idle: int, flushed: int)
  {
    function Ran(cost: int, halts: bool): Cpu {
      this.(clock := clock + cost, executed := executed + cost, halted := halts)
    }
    function Idled(until: int): Cpu {
      this.(clock := until, idle := idle + (until - clock))
    }
    function Flushed(): Cpu { this.(idle := 0, flushed := flushed + idle) }
    function Woken(wake: bool): Cpu { this.(halted := halted && !wake) }
    function RolledBack(now: int): Cpu {
      if halted then Idled(now) else this
    }
  }

  datatype Item = Item(enabled: bool, when: int)

  /** A record of one executed event: which, when it was due, when it ran. */
  datatype Fired = Fired(item: nat, due: int, at: int)

  /** `freezes` has a bit for each ARM9 DMA channel and `gxStall` the one of the
      geometry FIFO, of `gxSize` entries; `swapping` holds the FIFO back from a buffer
      swap to the next vertical blank. */
  datatype Machine = Machine(
    now: int, arm9: Cpu, arm7: Cpu,
    gxStall: bool, freezes: seq<bool>, gxSize: nat, swapping: bool, reschedule: bool,
    items: seq<Item>, phase: int, line: int, frameDone: bool,
    tick: nat, fired: seq<Fired>)

  predicate WellFormed(m: Machine) {
    && |m.items| == ITEMS && m.items[DISPLAY].enabled && |m.freezes| == 4
    && 0 <= m.phase < 4 && 0 <= m.line < LINES
  }

  predicate Frozen(m: Machine) { m.gxStall || true in m.freezes }

  predicate Due(m: Machine, i: nat)
    requires i < |m.items|
  {
    m.items[i].enabled && m.items[i].when <= m.now
  }

  // ---------------------------------------------------------------- events

  /** Writes to the display and geometry events, which have their own rules, are
      dropped. */
  function ApplyOne(items: seq<Item>, now: int, w: Write): (r: seq<Item>)
    ensures |r| == |items|
    ensures items != [] ==> r[DISPLAY] == items[DISPLAY]
    ensures GX_FIFO < |items| ==> r[GX_FIFO] == items[GX_FIFO]
  {
    if !(1 <= w.item < |items|) || w.item == GX_FIFO then items
    else
      match w
      case Program(i, delay) => items[i := Item(true, now + delay)]
      case Trigger(i) => if i < DMA_0 || InFlight(items, now, i) then items else items[i := Item(true, now)]
      case Cancel(i) => items[i := items[i].(enabled := false)]
  }

  /** A channel whose event is still to come is in flight. */
  predicate InFlight(items: seq<Item>, now: int, i: nat)
    requires i < |items|
  {
    items[i].enabled && now < items[i].when
  }

  function Apply(items: seq<Item>, now: int, ws: seq<Write>): (r: seq<Item>)
    ensures |r| == |items|
    ensures items != [] ==> r[DISPLAY] == items[DISPLAY]
    ensures GX_FIFO < |items| ==> r[GX_FIFO] == items[GX_FIFO]
    decreases |ws|
  {
    if ws == [] then items else Apply(ApplyOne(items, now, ws[0]), now, ws[1..])
  }

  /** NDS_RescheduleGXFIFO: entries add up their costs. */
  function PushGx(items: seq<Item>, now: int, cost: nat): (r: seq<Item>)
    ensures |r| == |items|
    ensures items != [] ==> r[DISPLAY] == items[DISPLAY]
  {
    if |items| <= GX_FIFO || cost == 0 then items
    else items[GX_FIFO := Item(true, (if items[GX_FIFO].enabled then items[GX_FIFO].when else now) + cost)]
  }

  /** The geometry FIFO fed: a port write at a full FIFO stalls the bus, and its entry
      still goes in. */
  function Fed(m: Machine, f: Feed): Machine {
    m.(gxStall := m.gxStall || (f.port && FIFO_FULL <= m.gxSize + Min(f.before, f.sent)),
       gxSize := m.gxSize + f.sent,
       items := PushGx(m.items, m.now, f.sent))
  }

  /** The display event: four phases a scanline, see execHardware.  The vertical
      blank ends a buffer swap. */
  function FireDisplay(o: Oracle, m: Machine): (r: Machine)
    requires WellFormed(m)
    ensures WellFormed(r)
  {
    var line := if m.phase != 0 then m.line else if m.line == LAST_LINE then 0 else m.line + 1;
    var length := match m.phase case 0 => 12 case 1 => 84 case 2 => 3108 case _ => 1056;
    var flush := m.phase == 1 && line == VBLANK_LINE;
    var swap := m.phase == 0 && line == VBLANK_LINE && m.swapping;
    var items := m.items[DISPLAY := Item(true, m.items[DISPLAY].when + length)];
    m.(line := line,
       frameDone := m.frameDone || (m.phase == 0 && line == LAST_LINE),
       phase := if m.phase == 3 then 0 else m.phase + 1,
       arm9 := if flush then m.arm9.Flushed() else m.arm9,
       arm7 := if flush then m.arm7.Flushed() else m.arm7,
       swapping := m.swapping && !swap,
       items := Apply(PushGx(items, m.now, if swap then 1 else 0), m.now, o.display(m.tick)),
       tick := m.tick + 1,
       fired := m.fired + [Fired(DISPLAY, m.items[DISPLAY].when, m.now)])
  }

  /** The geometry event executes a batch, and more a tick later; while a swap is
      pending it does nothing. */
  function FireGx(m: Machine, h: Reaction): (r: Machine)
    requires WellFormed(m)
    ensures WellFormed(r)
  {
    var n := Min(m.gxSize, FIFO_BATCH);
    if m.swapping then m.(items := m.items[GX_FIFO := m.items[GX_FIFO].(enabled := false)])
    else
      var self := if n > 0 then Item(true, m.now + 1) else m.items[GX_FIFO].(enabled := false);
      m.(items := Apply(m.items[GX_FIFO := self], m.now, h.writes),
         gxSize := m.gxSize - n,
         swapping := n > 0 && h.swaps)
  }

  /** DmaController::exec, as far as the scheduler sees it. */
  function FireDma(m: Machine, h: Reaction, i: nat): (r: Machine)
    requires WellFormed(m) && DMA_0 <= i < ITEMS
    ensures WellFormed(r)
  {
    var arm9 := i < DMA_0 + 4;
    var f := m.(items := m.items[i := m.items[i].(enabled := false)],
                freezes := if arm9 then m.freezes[i - DMA_0 := h.copies] else m.freezes);
    if !h.copies then f
    else
      var t := Fed(f, if arm9 then h.feed else NO_FEED);
      t.(items := Apply(t.items, m.now, h.writes)[i := Item(true, m.now + h.takes)])
  }

  function FireItem(o: Oracle, m: Machine, i: nat): (r: Machine)
    requires WellFormed(m) && 1 <= i < ITEMS
    ensures WellFormed(r)
  {
    var h := o.hardware(m.tick, i);
    var r :=
      if i == GX_FIFO then FireGx(m, h)
      else if DMA_0 <= i then FireDma(m, h, i)
      else if TIMER_0 <= i then m.(items := m.items[i := Item(true, m.now + 1 + h.extra)])
      else m.(items := m.items[i := m.items[i].(enabled := false)]);
    r.(tick := m.tick + 1, fired := m.fired + [Fired(i, m.items[i].when, m.now)])
  }

  function Fire(o: Oracle, m: Machine, i: nat): (r: Machine)
    requires WellFormed(m) && i < ITEMS
    ensures WellFormed(r)
  {
    if i == DISPLAY then FireDisplay(o, m) else FireItem(o, m, i)
  }

  /** Sequencer::execHardware from event `i` on: each due event runs once. */
  function Poll(o: Oracle, m: Machine, i: nat): (r: Machine)
    requires WellFormed(m) && i <= ITEMS
    ensures WellFormed(r)
    decreases |m.items| - i
  {
    if i == ITEMS then m else Poll(o, if Due(m, i) then Fire(o, m, i) else m, i + 1)
  }

  /** Sequencer::findNext over the events from `i` on. */
  function FindNext(items: seq<Item>, i: nat, next: int): int
    requires i <= |items|
    decreases |items| - i
  {
    if i == |items| then next
    else FindNext(items, i + 1, if items[i].enabled then Min(next, items[i].when) else next)
  }

  /** The end of the next stretch of CPU time. */
  function Horizon(m: Machine): int
    requires WellFormed(m)
  {
    Min(FindNext(m.items, 1, m.items[DISPLAY].when), m.now + MAX_WORK)
  }

  // ------------------------------------------------------- the two CPUs

  /** What CPU time never changes: the display, and the log of past events. */
  predicate SameFrame(a: Machine, b: Machine) {
    && a.phase == b.phase && a.line == b.line && a.frameDone == b.frameDone && a.fired == b.fired
    && a.freezes == b.freezes && a.swapping == b.swapping
    && |a.items| == |b.items| && (a.items != [] ==> a.items[DISPLAY] == b.items[DISPLAY])
  }

  /** What one call of armcpu_exec does outside its own CPU. */
  function Retire(m: Machine, e: Exec): Machine {
    m.(reschedule := m.reschedule || e.reschedules || e.writes != [],
       items := Apply(m.items, m.now, e.writes),
       tick := m.tick + 1)
  }

  function Step9(o: Oracle, m: Machine, next: int): (r: Machine)
    ensures m.arm9.clock < next ==> m.arm9.clock < r.arm9.clock
    ensures r.arm7 == m.arm7 && r.now == m.now && SameFrame(r, m)
  {
    if !m.arm9.halted && !Frozen(m) then
      var e := o.arm9(m.tick);
      var f := Fed(m.(arm9 := m.arm9.Ran(e.Cost(), e.halts), reschedule := m.reschedule || e.feed.sent > 0), e.feed);
      Retire(f, e)
    else
      m.(arm9 := m.arm9.Idled(Min(next, m.arm9.clock + IRQ_WAIT)), gxStall := m.gxStall && FIFO_FULL <= m.gxSize)
  }

  /** An ARM7 cycle lasts two clock ticks. */
  function Step7(o: Oracle, m: Machine, next: int): (r: Machine)
    ensures m.arm7.clock < next ==> m.arm7.clock < r.arm7.clock
    ensures r.arm9 == m.arm9 && r.now == m.now && SameFrame(r, m)
  {
    if !m.arm7.halted && !Frozen(m) then
      var e := o.arm7(m.tick);
      Retire(m.(arm7 := m.arm7.Ran(2 * e.Cost(), e.halts)), e)
    else
      m.(arm7 := m.arm7.Idled(Min(next, m.arm7.clock + IRQ_WAIT)))
  }

  /** minarmtime */
  function Lead(m: Machine, both: bool): int {
    if both then Min(m.arm9.clock, m.arm7.clock) else m.arm9.clock
  }

  predicate Running(m: Machine, next: int, both: bool) {
    Lead(m, both) < next && !m.reschedule
  }

  /** The ARM9's turn in one pass of the inner loop. */
  function Turn9(o: Oracle, m: Machine, next: int, both: bool): (r: Machine)
    requires Lead(m, both) < next
    ensures Lead(m, both) < r.arm9.clock
    ensures r.arm7 == m.arm7 && r.now == m.now && SameFrame(r, m)
  {
    if !both || m.arm9.clock <= Lead(m, both) then Step9(o, m, next) else m
  }

  /** The ARM7's turn in the same pass, against the lead at the pass's start. */
  function Turn7(o: Oracle, m: Machine, next: int, lead: int): (r: Machine)
    requires lead < next && lead <= m.arm7.clock
    ensures lead < r.arm7.clock
    ensures r.arm9 == m.arm9 && r.now == m.now && SameFrame(r, m)
  {
    if m.arm7.clock <= lead then Step7(o, m, next) else m
  }

  /** The ARM7 idled to the horizon in this pass and leaves the rest to ARM9. */
  predicate HandsOver(before: Machine, after: Machine, next: int, lead: int) {
    before.arm7.clock <= lead && (before.arm7.halted || Frozen(before)) && after.arm7.clock == next
  }

  /** The head of the inner loop: the machine, and whether ARM7 still runs. */
  datatype Head = Head(m: Machine, both: bool)

  /** One pass of the inner loop: a turn of each CPU that is not ahead. */
  function Pass(o: Oracle, m: Machine, next: int, both: bool): (h: Head)
    requires Running(m, next, both)
    ensures SameFrame(h.m, m) && (h.both ==> both)
    ensures h.both == both ==> Lead(m, both) < Lead(h.m, both)
  {
    var m9 := Turn9(o, m, next, both);
    if !both then Head(m9.(now := m9.arm9.clock), false)
    else
      var m7 := Turn7(o, m9, next, Lead(m, true));
      if HandsOver(m9, m7, next, Lead(m, true)) then Head(m7.(now := m7.arm9.clock), false)
      else Head(m7.(now := Lead(m7, true)), true)
  }

  /** armInnerLoop, with its hand-over to ARM9 alone */
  function Inner(o: Oracle, m: Machine, next: int, both: bool): (r: Machine)
    ensures SameFrame(r, m)
    decreases both, next - Lead(m, both)
  {
    if !Running(m, next, both) then m
    else var h := Pass(o, m, next, both); Inner(o, h.m, next, h.both)
  }

  /** The roll-back of halted CPUs at the end of a stretch. */
  function RollBack(m: Machine): Machine {
    m.(arm9 := m.arm9.RolledBack(m.now), arm7 := m.arm7.RolledBack(m.now))
  }

  /** execHardware_interrupts, which can only end halts. */
  function PollInterrupts(o: Oracle, m: Machine): Machine {
    var w := o.interrupts(m.tick);
    m.(arm9 := m.arm9.Woken(w.arm9), arm7 := m.arm7.Woken(w.arm7), tick := m.tick + 1)
  }

  /** The CPU part of one iteration of the NDS_exec loop. */
  function Stretch(o: Oracle, m: Machine): Machine
    requires WellFormed(m)
  {
    RollBack(Inner(o, m.(reschedule := false), Horizon(m), true))
  }

  /** One iteration of the NDS_exec loop; the frame's end leaves it early. */
  function Iterate(o: Oracle, m: Machine): Machine
    requires WellFormed(m)
  {
    var p := Poll(o, m, 0);
    if p.frameDone then p
    else Stretch(o, PollInterrupts(o, p))
  }
}
