/**
 A run from reset in which a stalled geometry FIFO makes an event late by far more than
 any instruction takes: a buffer swap stops the FIFO just as it has room again, and the
 bus then thaws with the horizon far away.
 */
module SchedulerStall {
  import opened SchedulerModel
  import opened SchedulerProofs
  import opened SchedulerRuns
  import opened SchedulerLimits

  const TIMER := TIMER_0 + 4           // ARM7's first two timers
  const LATE_TIMER := TIMER_0 + 5

  /** No instruction takes more than 24 ticks.  ARM9 stores six words of packed commands
      to the FIFO and starts a DMA copy of 84 more; then it stores twelve registers to
      the command ports.  ARM7 sets a timer, halts, is woken by it, sets another one and
      halts again. */
  function Stalling(): Oracle {
    Oracle(
      t => if t == 2 then Exec(11, false, Feed(20, false, 0), true, [])
           else if t == 6 then Exec(1, false, NO_FEED, true, [Program(DMA_0, 0)])
           else if t == 16 then Exec(23, false, Feed(12, true, 11), true, [])
           else Exec(1, false, NO_FEED, false, []),
      t => if t == 3 then Exec(5, false, NO_FEED, true, [Program(TIMER, 374)])
           else if t == 15 then Exec(9, true, NO_FEED, false, [])
           else if t == 22 then Exec(0, false, NO_FEED, true, [Program(LATE_TIMER, 64)])
           else if t == 24 then Exec(0, true, NO_FEED, false, [])
           else Exec(0, false, NO_FEED, false, []),
      _ => [],
      (t, i) => if t == 8 then Reaction(0, true, 336, Feed(336, false, 0), false, [])
                else if t == 17 then NO_REACTION.(swaps := true)
                else if t == 20 then NO_REACTION.(extra := 371)
                else NO_REACTION,
      t => Wake(false, t == 21))
  }

  // --------------------------------------------------------- the event table

  const OFF := Item(false, 0)

  function On(when: int): Item { Item(true, when) }

  /** An item as good as `b`: when it is off, its time does not matter. */
  predicate As(a: Item, b: Item) { a.enabled == b.enabled && (a.enabled ==> a == b) }

  /** The display, the geometry FIFO, ARM7's two timers and ARM9's first DMA channel;
      nothing else is on. */
  predicate Table(m: Machine, display: int, gx: Item, timer: Item, late: Item, dma: Item) {
    && WellFormed(m) && !m.frameDone
    && m.items[DISPLAY] == On(display) && As(m.items[GX_FIFO], gx) && As(m.items[TIMER], timer)
    && As(m.items[LATE_TIMER], late) && As(m.items[DMA_0], dma)
    && forall k :: 1 <= k < ITEMS && k != GX_FIFO && k != TIMER && k != LATE_TIMER && k != DMA_0 ==> !m.items[k].enabled
  }

  function Sooner(i: Item, t: int): int { if i.enabled then Min(i.when, t) else t }

  lemma TableHorizon(m: Machine, display: int, gx: Item, timer: Item, late: Item, dma: Item)
    requires Table(m, display, gx, timer, late, dma)
    ensures Horizon(m) == Min(Sooner(gx, Sooner(timer, Sooner(late, Sooner(dma, display)))), m.now + MAX_WORK)
  {
    FindNextIsLeast(m.items, 1, display);
  }

  predicate Here(m: Machine, now: int, clock9: int, clock7: int, tick: nat) {
    m.now == now && m.arm9.clock == clock9 && m.arm7.clock == clock7 && m.tick == tick && !m.arm9.halted
  }

  // ---------------------------------------------------- polls and stretches

  lemma {:induction false} PollToQuiet(o: Oracle, m: Machine, i: nat, k: nat)
    requires WellFormed(m) && i <= k <= ITEMS && Clear(m.items, m.now, i, k)
    ensures PollTo(o, m, i, k) == m
    decreases k - i
  {
    if i < k { PollToQuiet(o, m, i + 1, k); }
  }

  /** Only event `k` is due. */
  lemma {:induction false} PollsOne(o: Oracle, m: Machine, i: nat, k: nat)
    requires WellFormed(m) && i <= k < ITEMS && Due(m, k) && Clear(m.items, m.now, i, k)
    requires Clear(Fire(o, m, k).items, Fire(o, m, k).now, k + 1, ITEMS)
    ensures Poll(o, m, i) == Fire(o, m, k)
  {
    PollToQuiet(o, m, i, k);
    PollQuiet(o, Fire(o, m, k), k + 1);
    hide Fire;
  }

  /** After the poll, the interrupts and the CPUs. */
  lemma AfterPoll(o: Oracle, m: Machine)
    requires WellFormed(m) && !Poll(o, m, 0).frameDone
    ensures Iterate(o, m) == Stretch(o, PollInterrupts(o, Poll(o, m, 0)))
  {
  }

  /** A copying channel keeps both CPUs idle up to the horizon. */
  lemma {:induction false} FrozenStretch(o: Oracle, m: Machine)
    requires WellFormed(m) && true in m.freezes && !m.gxStall && !m.arm9.halted && !m.arm7.halted
    requires m.arm9.clock == m.arm7.clock == m.now < Horizon(m)
    ensures var r := Stretch(o, m);
            && Here(r, Horizon(m), Horizon(m), Horizon(m), m.tick) && r.items == m.items && r.gxSize == m.gxSize
            && SameFrame(r, m) && !r.arm7.halted && !r.gxStall
  {
    var start, next := m.(reschedule := false), Horizon(m);
    hide Horizon;
    var h := Pass(o, start, next, true);
    assert Inner(o, start, next, true) == Inner(o, h.m, next, false) == h.m;
  }

  // ----------------------------------------------------------- the iterations

  /** ARM9 feeds the first commands, ARM7 sets its timer. */
  lemma First(o: Oracle) returns (r: Machine)
    requires o == Stalling()
    ensures r == Run(o, Boot(), 1) && Table(r, 12, On(20), On(374), OFF, OFF) && Here(r, 12, 12, 12, 4)
    ensures !r.arm7.halted && !r.gxStall && r.freezes == [false, false, false, false] && r.gxSize == 20 && r.phase == 1
    ensures r.line == 0 && !r.swapping
  {
    hide Run, Iterate, Stretch, Apply, Horizon;
    FirstIteration(o);
    BothExecute(o, Started());
    r := Run(o, Boot(), 1);
    var fed := PushGx(Started().items, 0, 20);
    NoWrite(fed, 0);
    OneWrite(fed, 0, Program(TIMER, 374));
  }

  /** The display's phase ends; ARM9 starts the DMA copy. */
  lemma Second(o: Oracle, m: Machine) returns (r: Machine)
    requires o == Stalling() && Table(m, 12, On(20), On(374), OFF, OFF) && Here(m, 12, 12, 12, 4)
    requires !m.arm7.halted && !m.gxStall && m.freezes == [false, false, false, false] && m.gxSize == 20
    requires m.phase == 1 && m.line == 0 && !m.swapping
    ensures r == Iterate(o, m) && Table(r, 96, On(20), On(374), OFF, On(12)) && Here(r, 14, 14, 14, 8)
    ensures !r.arm7.halted && !r.gxStall && r.freezes == [false, false, false, false] && r.gxSize == 20 && r.phase == 2
    ensures r.line == 0 && !r.swapping
  {
    hide Apply, Horizon, Stretch;
    r := Iterate(o, m);
    NoWrite(m.items[DISPLAY := On(96)], 12);
    PollsOne(o, m, 0, DISPLAY);
    AfterPoll(o, m);
    hide Iterate, Poll, PollTo;
    var q := PollInterrupts(o, Fire(o, m, DISPLAY));
    TableHorizon(q, 96, On(20), On(374), OFF, OFF);
    BothExecute(o, q);
    OneWrite(q.items, 12, Program(DMA_0, 0));
    NoWrite(ApplyOne(q.items, 12, Program(DMA_0, 0)), 12);
  }

  /** DMA copies and freezes the bus. */
  lemma Third(o: Oracle, m: Machine) returns (r: Machine)
    requires o == Stalling() && Table(m, 96, On(20), On(374), OFF, On(12)) && Here(m, 14, 14, 14, 8)
    requires !m.arm7.halted && !m.gxStall && m.freezes == [false, false, false, false] && m.gxSize == 20
    requires m.phase == 2 && m.line == 0 && !m.swapping
    ensures r == Iterate(o, m) && Table(r, 96, On(356), On(374), OFF, On(350)) && Here(r, 96, 96, 96, 10)
    ensures !r.arm7.halted && !r.gxStall && r.freezes == [true, false, false, false]
    ensures r.gxSize == 356 && r.phase == 2 && r.line == 0 && !r.swapping
  {
    hide Apply, Horizon, Stretch;
    r := Iterate(o, m);
    NoWrite(PushGx(m.items[DMA_0 := m.items[DMA_0].(enabled := false)], 14, 336), 14);
    PollsOne(o, m, 0, DMA_0);
    AfterPoll(o, m);
    hide Iterate, Poll, PollTo;
    var q := PollInterrupts(o, Fire(o, m, DMA_0));
    TableHorizon(q, 96, On(356), On(374), OFF, On(350));
    assert q.freezes == [true, false, false, false] && q.freezes[0];
    FrozenStretch(o, q);
  }

  lemma Fourth(o: Oracle, m: Machine) returns (r: Machine)
    requires o == Stalling() && Table(m, 96, On(356), On(374), OFF, On(350)) && Here(m, 96, 96, 96, 10)
    requires !m.arm7.halted && !m.gxStall && m.freezes == [true, false, false, false]
    requires m.gxSize == 356 && m.phase == 2 && m.line == 0 && !m.swapping
    ensures r == Iterate(o, m) && Table(r, 3204, On(356), On(374), OFF, On(350)) && Here(r, 350, 350, 350, 12)
    ensures !r.arm7.halted && !r.gxStall && r.freezes == [true, false, false, false] && r.gxSize == 356 && !r.swapping
  {
    hide Apply, Horizon, Stretch;
    r := Iterate(o, m);
    NoWrite(m.items[DISPLAY := On(3204)], 96);
    PollsOne(o, m, 0, DISPLAY);
    AfterPoll(o, m);
    hide Iterate, Poll, PollTo;
    var q := PollInterrupts(o, Fire(o, m, DISPLAY));
    TableHorizon(q, 3204, On(356), On(374), OFF, On(350));
    FrozenStretch(o, q);
  }

  /** Two passes: ARM9 runs one instruction while ARM7 halts past it, then ARM9 stores to
      the ports of the full FIFO. */
  lemma PortStore(o: Oracle, m: Machine)
    requires o == Stalling() && WellFormed(m) && Here(m, 350, 350, 350, 14) && Horizon(m) == 356
    requires !m.arm7.halted && !Frozen(m) && m.gxSize == 356 && m.items[GX_FIFO] == On(356)
    ensures var r := Stretch(o, m);
            && Here(r, 370, 376, 370, 17) && r.items == m.items[GX_FIFO := On(368)] && SameFrame(r, m)
            && r.arm7.halted && r.gxStall && r.gxSize == 368
  {
    hide Horizon;
    var start := m.(reschedule := false);
    NoWrite(start.items, 350);
    NoWrite(PushGx(start.items, 352, 12), 352);
    hide Apply;
    var h := Pass(o, start, 356, true);
    assert Here(h.m, 352, 352, 370, 16) && h.both && h.m.arm7.halted && !Frozen(h.m) && h.m.items == m.items;
    var g := Pass(o, h.m, 356, true);
    assert Here(g.m, 370, 376, 370, 17) && g.both && g.m.reschedule;
    assert Inner(o, start, 356, true) == Inner(o, h.m, 356, true) == g.m;
  }

  /** The copy is over; ARM9 stalls the bus. */
  lemma Fifth(o: Oracle, m: Machine) returns (r: Machine)
    requires o == Stalling() && Table(m, 3204, On(356), On(374), OFF, On(350)) && Here(m, 350, 350, 350, 12)
    requires !m.arm7.halted && !m.gxStall && m.freezes == [true, false, false, false] && m.gxSize == 356 && !m.swapping
    ensures r == Iterate(o, m) && Table(r, 3204, On(368), On(374), OFF, OFF) && Here(r, 370, 376, 370, 17)
    ensures r.arm7.halted && r.gxStall && r.freezes == [false, false, false, false] && r.gxSize == 368 && !r.swapping
  {
    hide Apply, Horizon, Stretch;
    r := Iterate(o, m);
    PollsOne(o, m, 0, DMA_0);
    AfterPoll(o, m);
    hide Iterate, Poll, PollTo;
    var q := PollInterrupts(o, Fire(o, m, DMA_0));
    TableHorizon(q, 3204, On(356), On(374), OFF, OFF);
    PortStore(o, q);
  }

  /** The batch swaps buffers and makes room; the CPUs get one tick, which ARM9 has
      long passed. */
  lemma Sixth(o: Oracle, m: Machine) returns (r: Machine)
    requires o == Stalling() && Table(m, 3204, On(368), On(374), OFF, OFF) && Here(m, 370, 376, 370, 17)
    requires m.arm7.halted && m.gxStall && m.freezes == [false, false, false, false] && m.gxSize == 368 && !m.swapping
    ensures r == Iterate(o, m) && Table(r, 3204, On(371), On(374), OFF, OFF) && Here(r, 376, 376, 376, 19)
    ensures r.arm7.halted && r.gxStall && r.freezes == [false, false, false, false] && r.gxSize == 241 && r.swapping
  {
    hide Apply, Horizon, Stretch;
    r := Iterate(o, m);
    NoWrite(m.items[GX_FIFO := On(371)], 370);
    PollsOne(o, m, 0, GX_FIFO);
    AfterPoll(o, m);
    hide Iterate, Poll, PollTo;
    var q := PollInterrupts(o, Fire(o, m, GX_FIFO));
    TableHorizon(q, 3204, On(371), On(374), OFF, OFF);
    HandOverJumps(o, q);
  }

  /** The geometry event finds the swap pending and is gone; the timer wakes ARM7. ARM9
      thaws the bus on its way to the next event, while ARM7 sets another timer. */
  lemma Seventh(o: Oracle, m: Machine) returns (r: Machine)
    requires o == Stalling() && Table(m, 3204, On(371), On(374), OFF, OFF) && Here(m, 376, 376, 376, 19)
    requires m.arm7.halted && m.gxStall && m.freezes == [false, false, false, false] && m.gxSize == 241 && m.swapping
    ensures r == Iterate(o, m) && Table(r, 3204, OFF, On(748), On(440), OFF) && Here(r, 378, 748, 378, 23)
    ensures !r.arm7.halted && !Frozen(r)
  {
    hide Apply, Horizon, Stretch;
    r := Iterate(o, m);
    var f := Fire(o, m, GX_FIFO);
    PollToQuiet(o, m, 0, GX_FIFO);
    PollsOne(o, f, GX_FIFO + 1, TIMER);
    var p := Fire(o, f, TIMER);
    assert Poll(o, m, 0) == Poll(o, m, GX_FIFO) == Poll(o, f, GX_FIFO + 1) == p;
    AfterPoll(o, m);
    hide Iterate, Poll, PollTo;
    var q := PollInterrupts(o, p);
    TableHorizon(q, 3204, OFF, On(748), OFF, OFF);
    ThawLeavesArm9Ahead(o, q);
    OneWrite(q.items, 376, Program(LATE_TIMER, 64));
  }

  /** ARM7 halts, and hands over to an ARM9 far ahead. */
  lemma Eighth(o: Oracle, m: Machine) returns (r: Machine)
    requires o == Stalling() && Table(m, 3204, OFF, On(748), On(440), OFF) && Here(m, 378, 748, 378, 23)
    requires !m.arm7.halted && !Frozen(m)
    ensures r == Iterate(o, m) && WellFormed(r) && !r.frameDone && r.items[LATE_TIMER] == On(440) && r.now == 748
    ensures r.tick == 25
  {
    hide Horizon, Stretch;
    r := Iterate(o, m);
    QuietIteration(o, m);
    hide Iterate;
    var q := m.(tick := 24);
    TableHorizon(q, 3204, OFF, On(748), On(440), OFF);
    HaltsBehind(o, q);
  }

  lemma HaltsBehind(o: Oracle, m: Machine)
    requires o == Stalling() && WellFormed(m) && Here(m, 378, 748, 378, 24) && Horizon(m) == 440 && !m.arm7.halted
    requires !Frozen(m)
    ensures var r := Stretch(o, m); r.now == 748 && r.items == m.items && r.tick == 25 && SameFrame(r, m)
  {
    hide Horizon;
    var start := m.(reschedule := false);
    NoWrite(start.items, 378);
    hide Apply;
    var h := Pass(o, start, 440, true);
    assert Here(h.m, 380, 748, 380, 25) && h.both && h.m.arm7.halted && h.m.items == m.items && !h.m.reschedule;
    var g := Pass(o, h.m, 440, true);
    assert !g.both && g.m.now == 748 && g.m.tick == 25;
    assert Inner(o, start, 440, true) == Inner(o, h.m, 440, true) == Inner(o, g.m, 440, false) == g.m;
  }

  lemma RunStep(o: Oracle, n: nat, m: Machine)
    requires m == Run(o, Boot(), n) && !m.frameDone
    ensures Run(o, Boot(), n + 1) == Iterate(o, m)
  {
    hide Iterate;
    assert m.(frameDone := false) == m;
  }

  lemma {:induction false} Eightfold() returns (o: Oracle, m: Machine)
    ensures o == Stalling() && m == Run(o, Boot(), 8)
    ensures WellFormed(m) && !m.frameDone && m.items[LATE_TIMER] == On(440) && m.now == 748 && m.tick == 25
  {
    hide Run, Iterate, Boot, Stalling, Frozen;
    o := Stalling();
    m := First(o);
    RunStep(o, 1, m);
    m := Second(o, m);
    RunStep(o, 2, m);
    m := Third(o, m);
    RunStep(o, 3, m);
    m := Fourth(o, m);
    RunStep(o, 4, m);
    m := Fifth(o, m);
    RunStep(o, 5, m);
    m := Sixth(o, m);
    RunStep(o, 6, m);
    m := Seventh(o, m);
    RunStep(o, 7, m);
    m := Eighth(o, m);
  }

  lemma StallingFits(to: nat)
    ensures Bounded(Stalling(), 24) && Quiet(Stalling(), LATE_TIMER, 25, to, true)
  {
  }

  /** The bound of one instruction is false of the code once a swap can stop a FIFO that
      stalls the bus: here no instruction takes more than 24 ticks, and the event of an
      ARM7 timer is 308 ticks late. */
  lemma {:induction false} SwapsDelayEvents() returns (o: Oracle)
    ensures Bounded(o, 24) && Fired(LATE_TIMER, 440, 748) in Run(o, Boot(), 9).fired
  {
    hide Run, Quiet, Iterate, Stalling, Boot, Bounded;
    var m;
    o, m := Eightfold();
    StallingFits(PollTo(o, m, 0, LATE_TIMER).tick);
    RunStep(o, 8, m);
    RunsAfterWait(o, m, LATE_TIMER, true);
  }

  /** So ARM9 does overtake events in runs from reset. */
  lemma {:induction false} ArmNineOvertakes() returns (o: Oracle, j: nat)
    ensures Bounded(o, 24) && Overtaken(Polled(o, Run(o, Boot(), j)), 24)
  {
    o := SwapsDelayEvents();
    hide Run, Overtaken;
    if forall i: nat :: i < 9 ==> !Overtaken(Polled(o, Run(o, Boot(), i)), 24) {
      PunctualUntilOvertaken(o, 9, 24);
      assert false;
    }
    j :| j < 9 && Overtaken(Polled(o, Run(o, Boot(), j)), 24);
  }
}
