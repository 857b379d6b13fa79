/**
 Whole runs of the scheduler: clock safety, bounded lateness, no lost event
 and progress of every frame.
 */
module SchedulerRuns {
  import opened SchedulerModel
  import opened SchedulerProofs

  const NO_REACTION := Reaction(0, false, 0, NO_FEED, false, [])

  /** The state left by NDS_Reset and Sequencer::init. */
  function Boot(): Machine {
    var cpu := Cpu(0, false, 0, 0, 0);
    var idle := Item(false, 0);
    Machine(0, cpu, cpu, false, [false, false, false, false], 0, false, false,
            seq(ITEMS, i => if i == DISPLAY then Item(true, 0) else idle),
            0, LAST_LINE, false, 0, [])
  }

  /** `n` iterations of the NDS_exec loop, over as many frames as they take. */
  function Run(o: Oracle, m: Machine, n: nat): (r: Machine)
    requires WellFormed(m)
    ensures WellFormed(r)
  {
    if n == 0 then m else Iterate(o, Run(o, m, n - 1).(frameDone := false))
  }

  // ------------------------------------------------------------- safety

  lemma {:induction false} BootSafe(o: Oracle, b: Bounds)
    requires Fits(o, b)
    ensures Safe(o, Boot(), b)
  {
  }

  lemma {:induction false} RunSafe(o: Oracle, m: Machine, n: nat, b: Bounds)
    requires Safe(o, m, b)
    ensures Safe(o, Run(o, m, n), b)
  {
    if n > 0 {
      RunSafe(o, m, n - 1, b);
      IterateSafe(o, Run(o, m, n - 1).(frameDone := false), b);
    }
  }

  /** The states at the top of some iteration of some run from reset. */
  ghost predicate Reachable(o: Oracle, r: Machine) {
    exists n: nat :: r == Run(o, Boot(), n)
  }

  lemma ReachableSafe(o: Oracle, r: Machine, b: Bounds)
    requires Fits(o, b)
    requires Reachable(o, r)
    ensures Safe(o, r, b)
  {
    var boot := Boot();
    var n: nat :| r == Run(o, boot, n);
    BootSafe(o, b);
    RunSafe(o, boot, n, b);
  }

  /** With a bus that never freezes, no event of any run is early or more than
      one instruction late, and the CPU clocks never differ by more. */
  lemma CalmRunsArePunctual(o: Oracle, r: Machine, C: int)
    requires Bounded(o, C) && 0 < C && NeverFreezes(o) && Reachable(o, r)
    ensures Punctual(r.fired, C)
    ensures r.now == Floor(r)
    ensures -C <= r.arm9.clock - r.arm7.clock <= C
    ensures Conserved(r.arm9) && Conserved(r.arm7)
  {
    ReachableSafe(o, r, Bounds(C, C, true, false));
  }

  /** Whatever freezes the bus, lateness and drift also stay within one idle jump. */
  lemma AllRunsArePunctual(o: Oracle, r: Machine, C: int)
    requires Bounded(o, C) && 0 < C && Reachable(o, r)
    ensures Punctual(r.fired, Max(C, IRQ_WAIT))
    ensures r.now - Max(C, IRQ_WAIT) <= r.arm7.clock <= r.now + Max(C, IRQ_WAIT)
    ensures r.now <= r.arm9.clock <= r.now + Max(C, IRQ_WAIT)
    ensures Conserved(r.arm9) && Conserved(r.arm7)
  {
    ReachableSafe(o, r, Bounds(C, Max(C, IRQ_WAIT), false, false));
  }

  /** When instructions schedule events for later ticks only, both bounds are
      strict. */
  lemma PromptRunsArePunctual(o: Oracle, r: Machine, C: int)
    requires Bounded(o, C) && 0 < C && Prompt(o) && Reachable(o, r)
    ensures NeverFreezes(o) ==> Punctual(r.fired, C - 1)
    ensures Punctual(r.fired, Max(C, IRQ_WAIT) - 1)
  {
    if NeverFreezes(o) { ReachableSafe(o, r, Bounds(C, C, true, true)); }
    ReachableSafe(o, r, Bounds(C, Max(C, IRQ_WAIT), false, true));
  }

  // ----------------------------------------------------------- progress

  /** The slower clock moves forward in every pass, handed over or not. */
  lemma {:induction false} InnerAdvances(o: Oracle, m: Machine, next: int, both: bool)
    requires Floor(m) <= m.now && (both || (m.arm7.clock == next && m.now == m.arm9.clock))
    ensures var r := Inner(o, m, next, both);
            && Floor(m) <= Floor(r) <= r.now
            && (Running(m, next, both) ==> Floor(m) < Floor(r))
    decreases both, next - Lead(m, both)
  {
    if Running(m, next, both) {
      var h := Pass(o, m, next, both);
      InnerAdvances(o, h.m, next, h.both);
    }
  }

  lemma {:induction false} StretchAdvances(o: Oracle, m: Machine)
    requires WellFormed(m) && Floor(m) <= m.now
    ensures var r := Stretch(o, m);
            && Floor(m) <= Floor(r) <= r.now && SameFrame(r, m)
            && (m.now < Horizon(m) ==> Floor(m) < Floor(r))
  {
    InnerAdvances(o, m.(reschedule := false), Horizon(m), true);
  }

  /** A handler schedules events for later ticks, or for its own tick if the poll
      visits them after it; one that copies also triggers channels visited before it.
      A copy takes time, and no handler switches a channel off. */
  ghost predicate Progressive(o: Oracle) {
    forall t: nat, i: nat :: Ahead(o.hardware(t, i), i)
  }

  predicate Ahead(h: Reaction, i: nat) {
    (h.copies ==> 0 < h.takes) && AheadBy(h.writes, i)
  }

  predicate AheadBy(ws: seq<Write>, i: nat) {
    forall k :: 0 <= k < |ws| ==>
      match ws[k]
      case Program(j, d) => 0 < d || (i < j && (j < DMA_0 || DMA_0 <= i))
      case Trigger(j) => i < j || DMA_0 <= i
      case Cancel(j) => j < DMA_0
  }

  /** No event from position `from` up to position `to` is due. */
  predicate Clear(items: seq<Item>, now: int, from: nat, to: nat)
    requires to <= |items|
  {
    forall k :: from <= k < to && items[k].enabled ==> now < items[k].when
  }

  /** The channels not in flight, as a binary number whose leading digit is the
      channel that a poll visits first. */
  function Idle(items: seq<Item>, now: int, end: nat): nat
    requires end <= |items|
    decreases end
  {
    if end <= DMA_0 then 0
    else 2 * Idle(items, now, end - 1) + (if InFlight(items, now, end - 1) then 0 else 1)
  }

  function Weight(m: Machine): nat
    requires WellFormed(m)
  {
    Idle(m.items, m.now, ITEMS)
  }

  /** Every channel in flight still is. */
  predicate FliesOn(a: seq<Item>, b: seq<Item>, now: int, end: nat)
    requires end <= |a| == |b|
  {
    forall c :: DMA_0 <= c < end && InFlight(a, now, c) ==> InFlight(b, now, c)
  }

  lemma {:induction false} IdleFalls(a: seq<Item>, b: seq<Item>, now: int, end: nat)
    requires end <= |a| == |b| && FliesOn(a, b, now, end)
    ensures Idle(b, now, end) <= Idle(a, now, end)
    decreases end
  {
    if end > DMA_0 { IdleFalls(a, b, now, end - 1); }
  }

  /** Writes of the handler at `i` land no channel; those of a handler other than a
      copying one leave earlier events alone or move them ahead. */
  lemma {:induction false} ApplyAhead(items: seq<Item>, now: int, ws: seq<Write>, i: nat)
    requires |items| == ITEMS && i < ITEMS && AheadBy(ws, i)
    ensures var r := Apply(items, now, ws);
            && FliesOn(items, r, now, if DMA_0 <= i then i else ITEMS)
            && (i < DMA_0 && Clear(items, now, 1, i + 1) ==> Clear(r, now, 1, i + 1))
    decreases |ws|
  {
    if ws != [] {
      assert AheadBy(ws[1..], i);
      WriteAhead(items, now, ws[0], i);
      ApplyAhead(ApplyOne(items, now, ws[0]), now, ws[1..], i);
    }
  }

  lemma WriteAhead(items: seq<Item>, now: int, w: Write, i: nat)
    requires |items| == ITEMS && i < ITEMS && AheadBy([w], i)
    ensures var r := ApplyOne(items, now, w);
            && FliesOn(items, r, now, if DMA_0 <= i then i else ITEMS)
            && (i < DMA_0 && Clear(items, now, 1, i + 1) ==> Clear(r, now, 1, i + 1))
  {
    assert [w][0] == w;
  }

  /** How far a poll has come since the table `was`: it has no due event behind it,
      or has put a channel in flight before landing any visited earlier. */
  predicate Swept(was: seq<Item>, items: seq<Item>, now: int, i: nat)
    requires i <= |was| == |items| == ITEMS
  {
    || (Clear(items, now, 1, i) && FliesOn(was, items, now, ITEMS))
    || Idle(items, now, i) < Idle(was, now, i)
  }

  lemma {:induction false} ItemSweeps(o: Oracle, m: Machine, was: seq<Item>, i: nat)
    requires WellFormed(m) && 1 <= i < DMA_0 && |was| == ITEMS && Progressive(o) && Due(m, i)
    requires Swept(was, m.items, m.now, i)
    ensures Swept(was, FireItem(o, m, i).items, m.now, i + 1)
  {
    var h := o.hardware(m.tick, i);
    assert Ahead(h, i);
    hide Apply;
    var self := if i == GX_FIFO && !m.swapping && m.gxSize > 0 then Item(true, m.now + 1)
                else if TIMER_0 <= i then Item(true, m.now + 1 + h.extra) else m.items[i].(enabled := false);
    ApplyAhead(m.items[i := self], m.now, h.writes, i);
  }

  lemma {:induction false} CopySweeps(m: Machine, h: Reaction, was: seq<Item>, i: nat)
    requires WellFormed(m) && DMA_0 <= i < ITEMS && |was| == ITEMS && Ahead(h, i) && Due(m, i)
    requires Swept(was, m.items, m.now, i)
    ensures Swept(was, FireDma(m, h, i).items, m.now, i + 1)
  {
    hide Apply;
    var r := FireDma(m, h, i);
    var off := m.items[i := m.items[i].(enabled := false)];
    var fed := PushGx(off, m.now, if i < DMA_0 + 4 then h.feed.sent else 0);
    ApplyAhead(fed, m.now, h.writes, i);
    forall c | DMA_0 <= c < i && InFlight(m.items, m.now, c) ensures InFlight(r.items, m.now, c) {
      assert InFlight(fed, m.now, c);
    }
    IdleFalls(m.items, r.items, m.now, i);
    if Clear(m.items, m.now, 1, i) && FliesOn(was, m.items, m.now, ITEMS) { IdleFalls(was, m.items, m.now, i); }
  }

  /** What no event but the display touches. */
  lemma ItemKeeps(o: Oracle, m: Machine, i: nat)
    requires WellFormed(m) && 1 <= i < ITEMS
    ensures var r := FireItem(o, m, i);
            && r.items[DISPLAY] == m.items[DISPLAY] && r.phase == m.phase && r.line == m.line
                 && r.frameDone == m.frameDone
            && r.arm9 == m.arm9 && r.arm7 == m.arm7 && r.now == m.now && r.tick == m.tick + 1
  {
    hide Apply;
  }

  lemma ReachSweeps(o: Oracle, m: Machine, was: seq<Item>, i: nat)
    requires WellFormed(m) && 1 <= i < ITEMS && Progressive(o) && |was| == ITEMS && Swept(was, m.items, m.now, i)
    ensures Swept(was, (if Due(m, i) then FireItem(o, m, i) else m).items, m.now, i + 1)
  {
    if Due(m, i) {
      if i < DMA_0 {
        ItemSweeps(o, m, was, i);
      } else {
        assert Ahead(o.hardware(m.tick, i), i);
        CopySweeps(m, o.hardware(m.tick, i), was, i);
        hide FireDma;
      }
    }
  }

  lemma {:induction false} PollFrom(o: Oracle, m: Machine, was: seq<Item>, i: nat)
    requires WellFormed(m) && 1 <= i <= ITEMS && Progressive(o) && |was| == ITEMS && Swept(was, m.items, m.now, i)
    ensures var r := Poll(o, m, i); Swept(was, r.items, r.now, ITEMS) && r.now == m.now
    ensures var r := Poll(o, m, i);
            && r.items[DISPLAY] == m.items[DISPLAY] && r.phase == m.phase && r.line == m.line
                 && r.frameDone == m.frameDone
            && r.arm9 == m.arm9 && r.arm7 == m.arm7
    decreases ITEMS - i
  {
    if i < ITEMS {
      hide FireItem, Swept;
      ReachSweeps(o, m, was, i);
      ItemKeeps(o, m, i);
      PollFrom(o, if Due(m, i) then Fire(o, m, i) else m, was, i + 1);
    }
  }

  /** The poll after the display has had its turn. */
  function AfterDisplay(o: Oracle, m: Machine): (r: Machine)
    requires WellFormed(m)
    ensures WellFormed(r) && Poll(o, m, 0) == Poll(o, r, 1)
  {
    if Due(m, DISPLAY) then Fire(o, m, DISPLAY) else m
  }

  /** No event is lost: one poll runs or moves every event that is due, so only
      the display, which takes one phase a poll, can still be due after it.  Or else
      a copying channel has triggered others behind it; every such poll leaves fewer
      channels that can do so again. */
  lemma {:induction false} PollClears(o: Oracle, m: Machine)
    requires WellFormed(m) && Progressive(o)
    ensures var r := Poll(o, m, 0);
            && (Clear(r.items, r.now, 1, ITEMS) || Weight(r) < Weight(AfterDisplay(o, m))) && r.now == m.now
    ensures Poll(o, m, 0).items[DISPLAY].when != m.items[DISPLAY].when <==> Due(m, DISPLAY)
  {
    var f := AfterDisplay(o, m);
    PollFrom(o, f, f.items, 1);
  }

  /** Display phases until the next one that ends a frame. */
  function Remaining(m: Machine): nat
    requires WellFormed(m)
  {
    4 * ((LAST_LINE - 1 - m.line) % LINES) + (4 - m.phase) % 4 + 1
  }

  lemma DisplayCountsDown(o: Oracle, m: Machine)
    requires WellFormed(m) && !m.frameDone
    ensures var f := FireDisplay(o, m); Floor(f) == Floor(m) && (f.frameDone || Remaining(f) == Remaining(m) - 1)
  {
    hide Apply, PushGx;
  }

  lemma SameCount(a: Machine, b: Machine)
    requires WellFormed(a) && WellFormed(b)
    ensures a.line == b.line && a.phase == b.phase ==> Remaining(a) == Remaining(b)
  {
  }

  lemma {:induction false} PollCountsDown(o: Oracle, m: Machine)
    requires WellFormed(m) && Progressive(o) && !m.frameDone
    ensures var p := Poll(o, m, 0);
            && Floor(p) == Floor(m)
            && (if Due(m, DISPLAY)
                then p.frameDone || Remaining(p) == Remaining(m) - 1
                else !p.frameDone && Remaining(p) == Remaining(m) && p.items[DISPLAY] == m.items[DISPLAY])
  {
    var f := AfterDisplay(o, m);
    PollFrom(o, f, f.items, 1);
    DisplayCountsDown(o, m);
    SameCount(Poll(o, m, 0), f);
    hide Poll, FireDisplay, Remaining;
  }

  /** CPU time moves the slower clock on, or does nothing. */
  lemma {:induction false} StretchMovesOn(o: Oracle, m: Machine)
    requires WellFormed(m) && Floor(m) <= m.now
    ensures var r := Stretch(o, m);
            && Floor(m) <= Floor(r) <= r.now && SameFrame(r, m)
            && (Floor(m) < Floor(r) || (r.items == m.items && r.now == m.now && Horizon(m) <= m.now))
  {
    StretchAdvances(o, m);
    InnerAdvances(o, m.(reschedule := false), Horizon(m), true);
  }

  lemma PollDisplay(o: Oracle, m: Machine)
    requires WellFormed(m) && Progressive(o)
    ensures Due(m, DISPLAY) ==> m.items[DISPLAY].when < Poll(o, m, 0).items[DISPLAY].when
  {
    var f := AfterDisplay(o, m);
    PollFrom(o, f, f.items, 1);
    hide Poll;
  }

  /** Once the poll has cleared the table, the CPUs get time. */
  lemma ClearHorizon(m: Machine)
    requires WellFormed(m) && Clear(m.items, m.now, 0, ITEMS)
    ensures m.now < Horizon(m)
  {
    FindNextIsLeast(m.items, 1, m.items[DISPLAY].when);
  }

  /** An iteration takes a display phase, moves the slower clock on, or puts DMA
      channels in flight. */
  lemma {:induction false} IterateMovesOn(o: Oracle, m: Machine)
    requires WellFormed(m) && Progressive(o) && Floor(m) <= m.now && !m.frameDone
    ensures var r := Iterate(o, m);
            && WellFormed(r) && Floor(m) <= Floor(r) <= r.now
            && (if Due(m, DISPLAY) then m.items[DISPLAY].when < r.items[DISPLAY].when
                else r.items[DISPLAY] == m.items[DISPLAY]
                     && (Floor(m) < Floor(r) || (Floor(m) == Floor(r) && Weight(r) < Weight(m))))
  {
    hide Remaining, Idle;
    var p := Poll(o, m, 0);
    PollCountsDown(o, m);
    PollClears(o, m);
    PollDisplay(o, m);
    hide Poll, Stretch, Horizon;
    if !p.frameDone {
      StretchMovesOn(o, PollInterrupts(o, p));
      if Clear(p.items, p.now, 0, ITEMS) { ClearHorizon(PollInterrupts(o, p)); }
    }
  }

  /** An iteration ends the frame, takes a display phase, moves the clocks on toward
      the display's next phase, or puts DMA channels in flight. */
  lemma {:induction false} IterateProgresses(o: Oracle, m: Machine)
    requires WellFormed(m) && Progressive(o) && Floor(m) <= m.now && !m.frameDone
    ensures var r := Iterate(o, m);
            && WellFormed(r) && Floor(m) <= Floor(r) <= r.now
            && (r.frameDone || Remaining(r) < Remaining(m)
                || (Remaining(r) == Remaining(m) && r.items[DISPLAY] == m.items[DISPLAY]
                     && Floor(m) < m.items[DISPLAY].when
                    && (Floor(m) < Floor(r) || (Floor(m) == Floor(r) && Weight(r) < Weight(m)))))
  {
    hide Idle;
    var p := Poll(o, m, 0);
    IterateMovesOn(o, m);
    PollCountsDown(o, m);
    hide Poll, Remaining;
    if !p.frameDone {
      SameCount(Iterate(o, m), p);
      hide Inner;
    }
  }

  /** NDS_exec from its first iteration: the loop runs until the frame is done,
      and it always gets there. */
  ghost function Frame(o: Oracle, m: Machine): (r: Machine)
    requires WellFormed(m) && Progressive(o) && Floor(m) <= m.now && !m.frameDone
    ensures WellFormed(r) && r.frameDone && Floor(m) <= Floor(r) <= r.now
    decreases Remaining(m), Max(0, m.items[DISPLAY].when - Floor(m)), Weight(m)
  {
    IterateProgresses(o, m);
    if Iterate(o, m).frameDone then Iterate(o, m) else Frame(o, Iterate(o, m))
  }

  // ------------------------------------------------------ clock monotony

  lemma {:induction false} PollKeepsClocks(o: Oracle, m: Machine, i: nat)
    requires WellFormed(m) && i <= ITEMS
    ensures var r := Poll(o, m, i); r.now == m.now && r.arm9.clock == m.arm9.clock && r.arm7.clock == m.arm7.clock
    decreases ITEMS - i
  {
    if i < ITEMS {
      if Due(m, i) && 0 < i { ItemKeeps(o, m, i); }
      hide FireItem;
      PollKeepsClocks(o, if Due(m, i) then Fire(o, m, i) else m, i + 1);
    }
  }

  /** The slower clock never goes back, whatever the bus does. */
  lemma {:induction false} IterateAdvances(o: Oracle, m: Machine)
    requires WellFormed(m) && Floor(m) <= m.now
    ensures Floor(m) <= Floor(Iterate(o, m)) <= Iterate(o, m).now
  {
    PollKeepsClocks(o, m, 0);
    var p := Poll(o, m, 0);
    if !p.frameDone { StretchAdvances(o, PollInterrupts(o, p)); }
  }

  /** Hence the current time goes back only from a state in which ARM7 lags. */
  lemma {:induction false} ClockNeverGoesBack(o: Oracle, m: Machine)
    requires WellFormed(m) && Anchored(m) && m.now <= m.arm7.clock
    ensures m.now <= Iterate(o, m).now
  {
    IterateAdvances(o, m);
  }

  lemma {:induction false} CalmClockIsMonotone(o: Oracle, m: Machine, n: nat, b: Bounds)
    requires Safe(o, m, b) && b.calm
    ensures m.now <= Run(o, m, n).now
  {
    hide Iterate;
    if n > 0 {
      var r := Run(o, m, n - 1);
      assert m.now <= r.now by { CalmClockIsMonotone(o, m, n - 1, b); }
      assert r.now <= Iterate(o, r.(frameDone := false)).now by {
        RunSafe(o, m, n - 1, b);
        ClockNeverGoesBack(o, r.(frameDone := false));
      }
    }
  }

  /** And from such a state with a running ARM7, some script does set it back
      exactly if ARM7's cheapest instruction leaves it behind. */
  lemma {:induction false} LaggingClockCanGoBack(m: Machine)
    requires WellFormed(m) && m.now == m.arm9.clock && m.arm7.clock < Horizon(m) && !m.arm7.halted && !Frozen(m)
    ensures (exists o :: Stretch(o, m).now < m.now) <==> m.arm7.clock + 2 < m.now
  {
    if m.arm7.clock + 2 < m.now {
      SetsBack(m);
    } else {
      forall o ensures m.now <= Stretch(o, m).now { KeepsTime(o, m); }
    }
  }

  /** A script of cheapest instructions, each asking for a reschedule. */
  function Restless(): Oracle {
    var e := Exec(0, false, NO_FEED, true, []);
    Oracle(_ => e, _ => e, _ => [], (_, _) => NO_REACTION, _ => Wake(false, false))
  }

  lemma {:induction false} SetsBack(m: Machine)
    requires WellFormed(m) && m.now == m.arm9.clock && m.arm7.clock < Horizon(m) && !m.arm7.halted && !Frozen(m)
    requires m.arm7.clock + 2 < m.now
    ensures Stretch(Restless(), m).now < m.now
  {
    var o, start, next := Restless(), m.(reschedule := false), Horizon(m);
    hide Horizon;
    var m7 := Turn7(o, start, next, Floor(m));
    assert Turn9(o, start, next, true) == start;
    assert Inner(o, start, next, true) == m7.(now := Floor(m7));
  }

  lemma {:induction false} KeepsTime(o: Oracle, m: Machine)
    requires WellFormed(m) && m.now == m.arm9.clock && m.now <= m.arm7.clock + 2
    requires m.arm7.clock < Horizon(m) && !m.arm7.halted && !Frozen(m)
    ensures m.now <= Stretch(o, m).now
  {
    var start, next := m.(reschedule := false), Horizon(m);
    hide Horizon;
    if Running(start, next, true) {
      var h := Pass(o, start, next, true);
      InnerAdvances(o, h.m, next, h.both);
    }
  }

  // --------------------------------------------------- no event is skipped

  predicate Spares(ws: seq<Write>, k: nat) {
    forall x :: 0 <= x < |ws| ==> ws[x].item != k
  }

  /** A call that writes `ws` and feeds the geometry FIFO with `sent` entries does not
      move event `k`. */
  predicate Leaves(ws: seq<Write>, sent: nat, k: nat) {
    if k == GX_FIFO then sent == 0 else Spares(ws, k)
  }

  /** Call `t` does not move event `k`, except by its own handler; `cpus` tells whether
      the call can be an instruction. */
  ghost predicate Hush(o: Oracle, k: nat, t: nat, cpus: bool) {
    && (cpus ==> Leaves(o.arm9(t).writes, o.arm9(t).feed.sent, k) && Leaves(o.arm7(t).writes, 0, k))
    && Leaves(o.display(t), 0, k)
    && forall i: nat :: i != k ==> Leaves(o.hardware(t, i).writes, o.hardware(t, i).feed.sent, k)
  }

  ghost predicate Quiet(o: Oracle, k: nat, from: nat, to: nat, cpus: bool) {
    forall t: nat :: from <= t < to ==> Hush(o, k, t, cpus)
  }

  /** Event `k` is the end of a DMA copy that freezes the bus. */
  predicate EndsFreeze(m: Machine, k: nat)
    requires WellFormed(m)
  {
    DMA_0 <= k < DMA_0 + 4 && m.freezes[k - DMA_0]
  }

  /** Nothing moves event `k` between state `m` and call `to`.  No instruction can
      while the event ends a freeze; the geometry event moves with the vertical blank
      too, while a swap is pending. */
  ghost predicate Still(o: Oracle, m: Machine, k: nat, to: nat)
    requires WellFormed(m)
  {
    (k == GX_FIFO ==> !m.swapping) && Quiet(o, k, m.tick, to, !EndsFreeze(m, k))
  }

  /** No way for event `k` to be moved but by the calls. */
  predicate Held(m: Machine, k: nat, cpus: bool)
    requires WellFormed(m)
  {
    (k == GX_FIFO ==> !m.swapping) && (cpus || EndsFreeze(m, k))
  }

  /** How a step up to call `to` leaves event `k`. */
  predicate Waits(m: Machine, r: Machine, k: nat, cpus: bool)
    requires k < ITEMS
  {
    WellFormed(m) && WellFormed(r) && r.items[k] == m.items[k] && Held(r, k, cpus) && m.tick <= r.tick
  }

  lemma {:induction false} ApplySpares(items: seq<Item>, now: int, ws: seq<Write>, k: nat)
    requires k < |items| && Spares(ws, k)
    ensures Apply(items, now, ws)[k] == items[k]
    decreases |ws|
  {
    if ws != [] {
      assert ws[0].item != k && Spares(ws[1..], k);
      ApplySpares(ApplyOne(items, now, ws[0]), now, ws[1..], k);
    }
  }

  lemma FedSpares(items: seq<Item>, now: int, ws: seq<Write>, sent: nat, k: nat)
    requires k < |items| && Leaves(ws, sent, k)
    ensures Apply(PushGx(items, now, sent), now, ws)[k] == items[k]
    ensures Apply(items, now, ws)[k] == items[k]
  {
    if k != GX_FIFO {
      ApplySpares(PushGx(items, now, sent), now, ws, k);
      ApplySpares(items, now, ws, k);
    }
  }

  lemma {:induction false} FireSpares(o: Oracle, m: Machine, i: nat, k: nat, cpus: bool)
    requires WellFormed(m) && i < ITEMS && 1 <= k < ITEMS && i != k && Hush(o, k, m.tick, cpus) && Held(m, k, cpus)
    ensures Waits(m, Fire(o, m, i), k, cpus) && Fire(o, m, i).now == m.now && Fire(o, m, i).tick == m.tick + 1
  {
    if i == DISPLAY {
      DisplaySpares(o, m, k, cpus);
    } else if i == GX_FIFO {
      GxSpares(m, o.hardware(m.tick, i), k, cpus);
    } else if DMA_0 <= i {
      CopySpares(m, o.hardware(m.tick, i), i, k, cpus);
      hide FireDma;
    }
  }

  lemma DisplaySpares(o: Oracle, m: Machine, k: nat, cpus: bool)
    requires WellFormed(m) && 1 <= k < ITEMS && Hush(o, k, m.tick, cpus) && Held(m, k, cpus)
    ensures Waits(m, FireDisplay(o, m), k, cpus)
  {
    var items := m.items[DISPLAY := FireDisplay(o, m).items[DISPLAY]];
    FedSpares(items, m.now, o.display(m.tick), 0, k);
    if k != GX_FIFO { FedSpares(items, m.now, o.display(m.tick), 1, k); }
    hide Apply;
  }

  lemma GxSpares(m: Machine, h: Reaction, k: nat, cpus: bool)
    requires WellFormed(m) && 1 <= k < ITEMS && k != GX_FIFO && Leaves(h.writes, h.feed.sent, k) && Held(m, k, cpus)
    ensures FireGx(m, h).items[k] == m.items[k] && Held(FireGx(m, h), k, cpus)
  {
    ApplySpares(m.items[GX_FIFO := Item(true, m.now + 1)], m.now, h.writes, k);
    ApplySpares(m.items[GX_FIFO := m.items[GX_FIFO].(enabled := false)], m.now, h.writes, k);
  }

  lemma CopySpares(m: Machine, h: Reaction, i: nat, k: nat, cpus: bool)
    requires WellFormed(m) && DMA_0 <= i < ITEMS && 1 <= k < ITEMS && i != k
    requires Leaves(h.writes, h.feed.sent, k) && Held(m, k, cpus)
    ensures FireDma(m, h, i).items[k] == m.items[k] && Held(FireDma(m, h, i), k, cpus)
  {
    FedSpares(m.items[i := m.items[i].(enabled := false)], m.now, h.writes, h.feed.sent, k);
  }

  /** The poll from event `i` up to event `k`. */
  function PollTo(o: Oracle, m: Machine, i: nat, k: nat): (r: Machine)
    requires WellFormed(m) && i <= k <= ITEMS
    ensures WellFormed(r) && Poll(o, m, i) == Poll(o, r, k)
    decreases k - i
  {
    if i == k then m else PollTo(o, if Due(m, i) then Fire(o, m, i) else m, i + 1, k)
  }

  lemma {:induction false} FireExtendsLog(o: Oracle, m: Machine, i: nat)
    requires WellFormed(m) && i < ITEMS
    ensures var r := Fire(o, m, i);
            r.fired == m.fired + [Fired(i, m.items[i].when, m.now)] && r.tick == m.tick + 1 && r.now == m.now
  {
    hide Apply;
  }

  lemma {:induction false} PollExtendsLog(o: Oracle, m: Machine, i: nat)
    requires WellFormed(m) && i <= ITEMS
    ensures m.fired <= Poll(o, m, i).fired && m.tick <= Poll(o, m, i).tick
    decreases ITEMS - i
  {
    if i < ITEMS {
      FireExtendsLog(o, m, i);
      hide Fire;
      PollExtendsLog(o, if Due(m, i) then Fire(o, m, i) else m, i + 1);
    }
  }

  lemma {:induction false} PollToMovesOn(o: Oracle, m: Machine, i: nat, k: nat)
    requires WellFormed(m) && i <= k <= ITEMS
    ensures m.tick <= PollTo(o, m, i, k).tick <= Poll(o, m, i).tick && PollTo(o, m, i, k).now == m.now
    decreases k - i
  {
    PollExtendsLog(o, PollTo(o, m, i, k), k);
    if i < k {
      FireExtendsLog(o, m, i);
      hide Fire;
      PollToMovesOn(o, if Due(m, i) then Fire(o, m, i) else m, i + 1, k);
    }
  }

  /** Up to its own turn in the poll, an event is left alone unless a call moves it. */
  lemma {:induction false} PollToSpares(o: Oracle, m: Machine, i: nat, k: nat, cpus: bool)
    requires WellFormed(m) && i <= k < ITEMS && 1 <= k && Held(m, k, cpus)
    requires Quiet(o, k, m.tick, PollTo(o, m, i, k).tick, cpus)
    ensures Waits(m, PollTo(o, m, i, k), k, cpus) && PollTo(o, m, i, k).now == m.now
    decreases k - i
  {
    if i < k {
      var f := if Due(m, i) then Fire(o, m, i) else m;
      PollToMovesOn(o, f, i + 1, k);
      FireExtendsLog(o, m, i);
      if Due(m, i) {
        assert Hush(o, k, m.tick, cpus);
        FireSpares(o, m, i, k, cpus);
      }
      hide Fire, Held, Hush;
      PollToSpares(o, f, i + 1, k, cpus);
    }
  }

  /** An event that nothing moves before its turn runs in the first poll that finds it
      due. */
  lemma {:induction false} PollRunsDueEvent(o: Oracle, m: Machine, k: nat, cpus: bool)
    requires WellFormed(m) && 1 <= k < ITEMS && Due(m, k) && Held(m, k, cpus)
    requires Quiet(o, k, m.tick, PollTo(o, m, 0, k).tick, cpus)
    ensures Fired(k, m.items[k].when, m.now) in Poll(o, m, 0).fired
  {
    var p := PollTo(o, m, 0, k);
    PollToSpares(o, m, 0, k, cpus);
    hide PollTo;
    FireExtendsLog(o, p, k);
    PollExtendsLog(o, Fire(o, p, k), k + 1);
    assert Fire(o, p, k).fired[|p.fired|] == Fired(k, m.items[k].when, m.now);
    hide Fire;
  }

  /** A poll that does not find it due leaves it alone. */
  lemma {:induction false} PollSpares(o: Oracle, m: Machine, i: nat, k: nat, cpus: bool)
    requires WellFormed(m) && i <= ITEMS && 1 <= k < ITEMS && Held(m, k, cpus) && !Due(m, k)
    requires Quiet(o, k, m.tick, Poll(o, m, i).tick, cpus)
    ensures Waits(m, Poll(o, m, i), k, cpus)
    decreases ITEMS - i
  {
    if i < ITEMS {
      var f := if Due(m, i) then Fire(o, m, i) else m;
      PollExtendsLog(o, f, i + 1);
      FireExtendsLog(o, m, i);
      if Due(m, i) {
        assert Hush(o, k, m.tick, cpus);
        FireSpares(o, m, i, k, cpus);
      }
      hide Fire, Held, Hush;
      PollSpares(o, f, i + 1, k, cpus);
    }
  }

  lemma {:induction false} Turn9Spares(o: Oracle, m: Machine, next: int, both: bool, k: nat, cpus: bool)
    requires WellFormed(m) && 1 <= k < ITEMS && Lead(m, both) < next && Held(m, k, cpus)
    requires Quiet(o, k, m.tick, Turn9(o, m, next, both).tick, cpus)
    ensures Waits(m, Turn9(o, m, next, both), k, cpus)
  {
    if !m.arm9.halted && !Frozen(m) && (!both || m.arm9.clock <= Lead(m, both)) {
      assert Hush(o, k, m.tick, cpus);
      FedSpares(m.items, m.now, o.arm9(m.tick).writes, o.arm9(m.tick).feed.sent, k);
    }
  }

  lemma {:induction false} Turn7Spares(o: Oracle, m: Machine, next: int, lead: int, k: nat, cpus: bool)
    requires WellFormed(m) && 1 <= k < ITEMS && lead < next && lead <= m.arm7.clock && Held(m, k, cpus)
    requires Quiet(o, k, m.tick, Turn7(o, m, next, lead).tick, cpus)
    ensures Waits(m, Turn7(o, m, next, lead), k, cpus)
  {
    if !m.arm7.halted && !Frozen(m) && m.arm7.clock <= lead {
      assert Hush(o, k, m.tick, cpus);
      FedSpares(m.items, m.now, o.arm7(m.tick).writes, 0, k);
    }
  }

  lemma TicksMoveOn(o: Oracle, m: Machine, next: int, both: bool)
    requires Running(m, next, both)
    ensures var m9 := Turn9(o, m, next, both);
            && m.tick <= m9.tick <= Pass(o, m, next, both).m.tick
            && (both ==> Pass(o, m, next, both).m.tick == Turn7(o, m9, next, Lead(m, true)).tick)
            && (!both ==> Pass(o, m, next, both).m.tick == m9.tick)
  {
  }

  lemma {:induction false} PassSpares(o: Oracle, m: Machine, next: int, both: bool, k: nat, cpus: bool)
    requires WellFormed(m) && 1 <= k < ITEMS && Running(m, next, both) && Held(m, k, cpus)
    requires Quiet(o, k, m.tick, Pass(o, m, next, both).m.tick, cpus)
    ensures Waits(m, Pass(o, m, next, both).m, k, cpus)
  {
    TicksMoveOn(o, m, next, both);
    hide Turn9, Turn7, Hush;
    Turn9Spares(o, m, next, both, k, cpus);
    if both { Turn7Spares(o, Turn9(o, m, next, both), next, Lead(m, true), k, cpus); }
  }

  lemma {:induction false} InnerTicks(o: Oracle, m: Machine, next: int, both: bool)
    ensures m.tick <= Inner(o, m, next, both).tick
    decreases both, next - Lead(m, both)
  {
    if Running(m, next, both) {
      TicksMoveOn(o, m, next, both);
      hide Pass;
      InnerTicks(o, Pass(o, m, next, both).m, next, Pass(o, m, next, both).both);
    }
  }

  lemma {:induction false} InnerSpares(o: Oracle, m: Machine, next: int, both: bool, k: nat, cpus: bool)
    requires WellFormed(m) && 1 <= k < ITEMS && Held(m, k, cpus)
    requires Quiet(o, k, m.tick, Inner(o, m, next, both).tick, cpus)
    ensures Waits(m, Inner(o, m, next, both), k, cpus)
    decreases both, next - Lead(m, both)
  {
    hide Pass, Held, Hush;
    if Running(m, next, both) {
      var h := Pass(o, m, next, both);
      InnerTicks(o, h.m, next, h.both);
      TicksMoveOn(o, m, next, both);
      PassSpares(o, m, next, both, k, cpus);
      InnerSpares(o, h.m, next, h.both, k, cpus);
    }
  }

  /** An iteration whose poll does not find it due leaves it alone. */
  lemma {:induction false} IterateSpares(o: Oracle, m: Machine, k: nat, cpus: bool)
    requires WellFormed(m) && 1 <= k < ITEMS && Held(m, k, cpus) && !Due(m, k)
    requires Quiet(o, k, m.tick, Iterate(o, m).tick, cpus)
    ensures Waits(m, Iterate(o, m), k, cpus)
  {
    var p := Poll(o, m, 0);
    var q := PollInterrupts(o, p);
    var start := q.(reschedule := false);
    PollExtendsLog(o, m, 0);
    InnerTicks(o, start, Horizon(q), true);
    hide Inner, Poll, Hush, Horizon;
    PollSpares(o, m, 0, k, cpus);
    if !p.frameDone { InnerSpares(o, start, Horizon(q), true, k, cpus); }
  }

  lemma {:induction false} RunFromFront(o: Oracle, m: Machine, n: nat)
    requires WellFormed(m)
    ensures Run(o, Iterate(o, m.(frameDone := false)), n) == Run(o, m, n + 1)
  {
    hide Iterate;
    if n > 0 { RunFromFront(o, m, n - 1); }
  }

  /** The first `n` iterations begin before time `t`, the next one does not. */
  ghost predicate Reaches(o: Oracle, m: Machine, n: nat, t: int)
    requires WellFormed(m)
  {
    t <= Run(o, m, n).now && forall j: nat :: j < n ==> Run(o, m, j).now < t
  }

  /** The current time passes every bound, after finitely many iterations. */
  lemma {:induction false} ClockReaches(o: Oracle, m: Machine, t: int) returns (n: nat)
    requires WellFormed(m) && Progressive(o) && Floor(m) <= m.now
    ensures Reaches(o, m, n, t)
    decreases Max(0, t - Floor(m)) + Max(0, t - m.items[DISPLAY].when), Weight(m)
  {
    var s := m.(frameDone := false);
    var r := Iterate(o, s);
    assert Run(o, m, 0) == m;
    hide Iterate, Run, Weight;
    if t <= m.now {
      n := 0;
    } else {
      IterateMovesOn(o, s);
      assert Weight(s) == Weight(m) by { SameWeight(s, m); }
      n := ClockReaches(o, r, t);
      forall j: nat | j <= n ensures Run(o, m, j + 1) == Run(o, r, j) { RunFromFront(o, m, j); }
      forall j: nat | j < n + 1 ensures Run(o, m, j).now < t {
        if j > 0 { assert Run(o, m, j - 1 + 1) == Run(o, r, j - 1); }
      }
      n := n + 1;
    }
  }

  lemma SameWeight(a: Machine, b: Machine)
    requires WellFormed(a) && WellFormed(b) && a.items == b.items && a.now == b.now
    ensures Weight(a) == Weight(b)
  {
  }

  lemma IterateTicks(o: Oracle, m: Machine)
    requires WellFormed(m)
    ensures m.tick <= Iterate(o, m).tick
  {
    PollExtendsLog(o, m, 0);
    var q := PollInterrupts(o, Poll(o, m, 0));
    InnerTicks(o, q.(reschedule := false), Horizon(q), true);
    hide Poll, Inner, Horizon;
  }

  lemma {:induction false} RunTicks(o: Oracle, m: Machine, n: nat)
    requires WellFormed(m)
    ensures n > 0 ==> m.tick <= Run(o, m, n - 1).tick <= Run(o, m, n).tick
    ensures m.tick <= Run(o, m, n).tick
  {
    if n > 0 {
      hide Iterate;
      RunTicks(o, m, n - 1);
      IterateTicks(o, Run(o, m, n - 1).(frameDone := false));
    }
  }

  lemma QuietPart(o: Oracle, k: nat, from: nat, via: nat, to: nat, cpus: bool)
    requires Quiet(o, k, from, to, cpus) && from <= via <= to
    ensures Quiet(o, k, from, via, cpus) && Quiet(o, k, via, to, cpus)
  {
  }

  lemma StillHeld(m: Machine, k: nat, cpus: bool)
    requires WellFormed(m) && Held(m, k, cpus)
    ensures Held(m.(frameDone := false), k, cpus)
  {
  }

  /** An event that nothing moves waits untouched through the iterations before its
      time. */
  lemma {:induction false} RunSpares(o: Oracle, m: Machine, n: nat, k: nat, cpus: bool)
    requires WellFormed(m) && 1 <= k < ITEMS && Held(m, k, cpus) && Quiet(o, k, m.tick, Run(o, m, n).tick, cpus)
    requires forall j: nat :: j < n ==> Run(o, m, j).now < m.items[k].when
    ensures Waits(m, Run(o, m, n), k, cpus)
  {
    if n > 0 {
      hide Iterate, Quiet, Held;
      RunTicks(o, m, n);
      var r := Run(o, m, n - 1);
      QuietPart(o, k, m.tick, r.tick, Run(o, m, n).tick, cpus);
      RunSpares(o, m, n - 1, k, cpus);
      StillHeld(r, k, cpus);
      IterateSpares(o, r.(frameDone := false), k, cpus);
    }
  }

  /** The call at which the poll that follows state `s` comes to event `k`. */
  function TurnOf(o: Oracle, s: Machine, k: nat): nat
    requires WellFormed(s) && k <= ITEMS
  {
    PollTo(o, s.(frameDone := false), 0, k).tick
  }

  /** Every programmed event does run, unless something moves it before: in the first
      poll at or after its time, which comes after finitely many iterations. */
  lemma {:induction false} UnmovedEventFires(o: Oracle, m: Machine, k: nat) returns (n: nat)
    requires WellFormed(m) && Progressive(o) && Floor(m) <= m.now && 1 <= k < ITEMS && m.items[k].enabled
    ensures Reaches(o, m, n, m.items[k].when)
    ensures var s := Run(o, m, n);
            Still(o, m, k, TurnOf(o, s, k)) ==> Fired(k, m.items[k].when, s.now) in Run(o, m, n + 1).fired
  {
    n := ClockReaches(o, m, m.items[k].when);
    var s, cpus := Run(o, m, n), !EndsFreeze(m, k);
    var t := s.(frameDone := false);
    if Still(o, m, k, TurnOf(o, s, k)) {
      PollToMovesOn(o, t, 0, k);
      RunTicks(o, m, n);
      hide Hush;
      RunSpares(o, m, n, k, cpus);
      RunsAfterWait(o, t, k, cpus);
      assert Run(o, m, n + 1) == Iterate(o, t);
    }
  }

  lemma RunsAfterWait(o: Oracle, m: Machine, k: nat, cpus: bool)
    requires WellFormed(m) && 1 <= k < ITEMS && Due(m, k) && Held(m, k, cpus)
    requires Quiet(o, k, m.tick, PollTo(o, m, 0, k).tick, cpus)
    ensures Fired(k, m.items[k].when, m.now) in Iterate(o, m).fired
  {
    PollRunsDueEvent(o, m, k, cpus);
    hide Poll, Inner, PollTo;
  }

  /** In a run from reset it does so on time: at most one instruction late while the
      bus never freezes, and at most one idle jump late whatever happens. */
  lemma {:induction false} UnmovedEventIsPunctual(o: Oracle, r: Machine, k: nat, b: Bounds) returns (n: nat)
    requires Fits(o, b) && Progressive(o) && Reachable(o, r) && WellFormed(r)
    requires 1 <= k < ITEMS && r.items[k].enabled
    ensures Reaches(o, r, n, r.items[k].when)
    ensures var due, s := r.items[k].when, Run(o, r, n);
            Still(o, r, k, TurnOf(o, s, k)) ==>
              Fired(k, due, s.now) in Run(o, r, n + 1).fired && s.now <= due + b.Late()
  {
    hide Run, Still;
    ReachableSafe(o, r, b);
    n := UnmovedEventFires(o, r, k);
    RunSafe(o, r, n + 1, b);
  }

  /** The 32-bit times that the inner loop works on, relative to the current
      time, are small in every reachable state. */
  lemma {:induction false} RelativeTimesAreSmall(o: Oracle, m: Machine, b: Bounds)
    requires Safe(o, m, b)
    ensures 0 <= m.arm9.clock - m.now <= b.drift && -b.drift <= m.arm7.clock - m.now <= b.drift
    ensures -b.drift <= Horizon(m) - m.now <= MAX_WORK
  {
    FindNextIsLeast(m.items, 1, m.items[DISPLAY].when);
  }

  /** In particular when the CPUs get their turn after a poll. */
  lemma {:induction false} PolledTimesAreSmall(o: Oracle, m: Machine, b: Bounds)
    requires Safe(o, m, b)
    ensures var q := PollInterrupts(o, Poll(o, m, 0));
            && WellFormed(m) && WellFormed(q) && Bounded(o, b.drift)
            && 0 <= q.arm9.clock - q.now <= b.drift && -b.drift <= q.arm7.clock - q.now <= b.drift
                 && -b.drift <= Horizon(q) - q.now
  {
    PollSafe(o, m, 0, b);
    RelativeTimesAreSmall(o, PollInterrupts(o, Poll(o, m, 0)), b);
  }
}
