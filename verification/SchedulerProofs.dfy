/**
 What every run of the scheduler keeps, for every script.

 Each theorem is about runs within some `Bounds`.
 */
module SchedulerProofs {
  import opened SchedulerModel

  /** `cost` bounds the cost of one instruction in clock ticks.  `drift` bounds how
      far the two CPU clocks drift apart: it may be `cost` as long as nothing ever
      freezes the bus (`calm`), and must also cover one idle jump otherwise.  No
      event is later than that either, and none is as late if instructions schedule
      events for later ticks only (`prompt`). */
  datatype Bounds = Bounds(cost: int, drift: int, calm: bool, prompt: bool)
  {
    function Lag(): int { if prompt then 1 else 0 }
    function Late(): int { drift - Lag() }
  }

  /** No write schedules an event for less than `lag` ticks ahead. */
  predicate Delayed(ws: seq<Write>, lag: int) {
    forall k :: 0 <= k < |ws| ==>
      match ws[k] case Program(_, d) => lag <= d case Trigger(_) => lag <= 0 case Cancel(_) => true
  }

  ghost predicate Prompt(o: Oracle) {
    forall t: nat :: Delayed(o.arm9(t).writes, 1) && Delayed(o.arm7(t).writes, 1)
  }

  ghost predicate Bounded(o: Oracle, C: int) {
    && (forall t: nat :: o.arm9(t).Cost() <= C)
    && (forall t: nat :: 2 * o.arm7(t).Cost() <= C)
  }

  /** A write to a geometry port differs from other feeds only when it finds the FIFO
      full, so this asks for no more than that none does. */
  ghost predicate NeverStalls(o: Oracle) {
    (forall t: nat :: !o.arm9(t).feed.port) && (forall t: nat, i: nat :: !o.hardware(t, i).feed.port)
  }

  ghost predicate NeverFreezes(o: Oracle) {
    NeverStalls(o) && forall t: nat, i: nat :: DMA_0 <= i < DMA_0 + 4 ==> !o.hardware(t, i).copies
  }

  /** The scripts within the bounds. */
  ghost predicate Fits(o: Oracle, b: Bounds) {
    && Bounded(o, b.cost) && 0 < b.cost <= b.drift && (b.prompt ==> Prompt(o))
    && (if b.calm then NeverFreezes(o) else MAX_WORK <= b.drift)
  }

  /** What a script needs for the theorems about a state. */
  ghost predicate Slack(o: Oracle, m: Machine, b: Bounds) {
    Fits(o, b) && (b.calm ==> !Frozen(m))
  }

  predicate AllAfter(items: seq<Item>, t: int) {
    forall i :: 0 <= i < |items| && items[i].enabled ==> t <= items[i].when
  }

  /** Every clock tick is accounted for, across idle jumps and roll-backs. */
  predicate Conserved(c: Cpu) { c.clock == c.executed + c.idle + c.flushed }

  predicate Punctual(fired: seq<Fired>, D: int) {
    forall k :: 0 <= k < |fired| ==> fired[k].due <= fired[k].at <= fired[k].due + D
  }

  /** The clock of the slower CPU. */
  function Floor(m: Machine): int { Lead(m, true) }

  /** The current time is the slower clock, or ARM9's when ARM7 fell behind. */
  predicate Anchored(m: Machine) { m.now == m.arm9.clock || m.now == Floor(m) }

  /** The invariant at the top of every iteration of the NDS_exec loop. */
  ghost predicate Safe(o: Oracle, m: Machine, b: Bounds) {
    && WellFormed(m) && Slack(o, m, b)
    && Anchored(m) && m.arm9.clock - m.arm7.clock <= b.drift && m.arm7.clock - m.arm9.clock <= b.drift
    && (b.calm ==> m.now == Floor(m))
    && AllAfter(m.items, m.now - b.Late())
    && Conserved(m.arm9) && Conserved(m.arm7)
    && Punctual(m.fired, b.Late())
  }

  // ------------------------------------------------------------------ events

  lemma {:induction false} ApplyKeepsAfter(items: seq<Item>, now: int, ws: seq<Write>, t: int, lag: int)
    requires AllAfter(items, t) && Delayed(ws, lag) && (ws != [] ==> t <= now + lag)
    ensures AllAfter(Apply(items, now, ws), t)
    decreases |ws|
  {
    if ws != [] {
      assert match ws[0] case Program(_, d) => lag <= d case Trigger(_) => lag <= 0 case Cancel(_) => true;
      ApplyKeepsAfter(ApplyOne(items, now, ws[0]), now, ws[1..], t, lag);
    }
  }

  /** The event of the geometry FIFO only moves to later ticks. */
  lemma PushKeepsAfter(items: seq<Item>, now: int, cost: nat, t: int)
    requires AllAfter(items, t) && t <= now + 1
    ensures AllAfter(PushGx(items, now, cost), t)
  {
  }

  lemma DisplayKeepsAfter(o: Oracle, m: Machine, t: int)
    requires WellFormed(m) && AllAfter(m.items, t) && t <= m.now
    ensures AllAfter(FireDisplay(o, m).items, t)
  {
    var items := m.items[DISPLAY := FireDisplay(o, m).items[DISPLAY]];
    PushKeepsAfter(items, m.now, 1, t);
    ApplyKeepsAfter(PushGx(items, m.now, 0), m.now, o.display(m.tick), t, 0);
    ApplyKeepsAfter(PushGx(items, m.now, 1), m.now, o.display(m.tick), t, 0);
  }

  lemma GxKeepsAfter(m: Machine, h: Reaction, t: int)
    requires WellFormed(m) && AllAfter(m.items, t) && t <= m.now
    ensures AllAfter(FireGx(m, h).items, t)
  {
    var off := m.items[GX_FIFO := m.items[GX_FIFO].(enabled := false)];
    ApplyKeepsAfter(off, m.now, h.writes, t, 0);
    ApplyKeepsAfter(m.items[GX_FIFO := Item(true, m.now + 1)], m.now, h.writes, t, 0);
  }

  lemma DmaKeepsAfter(m: Machine, h: Reaction, i: nat, t: int)
    requires WellFormed(m) && AllAfter(m.items, t) && t <= m.now && DMA_0 <= i < ITEMS
    ensures AllAfter(FireDma(m, h, i).items, t)
  {
    var off, sent := m.items[i := m.items[i].(enabled := false)], if i < DMA_0 + 4 then h.feed.sent else 0;
    PushKeepsAfter(off, m.now, sent, t);
    ApplyKeepsAfter(PushGx(off, m.now, sent), m.now, h.writes, t, 0);
  }

  lemma ItemKeepsAfter(o: Oracle, m: Machine, i: nat, t: int)
    requires WellFormed(m) && AllAfter(m.items, t) && t <= m.now && 1 <= i < ITEMS
    ensures AllAfter(FireItem(o, m, i).items, t)
  {
    hide Apply;
    var h := o.hardware(m.tick, i);
    if i == GX_FIFO { GxKeepsAfter(m, h, t); } else if DMA_0 <= i { DmaKeepsAfter(m, h, i, t); }
  }

  /** An event that is due at most `Late()` ago changes no CPU clock, and freezes a calm
      bus not at all. */
  lemma ItemSafe(o: Oracle, m: Machine, i: nat, b: Bounds)
    requires Safe(o, m, b) && 1 <= i < ITEMS && Due(m, i)
    ensures Safe(o, FireItem(o, m, i), b) && FireItem(o, m, i).now == m.now
  {
    ItemKeepsAfter(o, m, i, m.now - b.Late());
    hide Apply, PushGx;
  }

  lemma FireSafe(o: Oracle, m: Machine, i: nat, b: Bounds)
    requires Safe(o, m, b) && i < ITEMS && Due(m, i)
    ensures Safe(o, Fire(o, m, i), b)
    ensures Fire(o, m, i).now == m.now
  {
    if i == DISPLAY {
      DisplayKeepsAfter(o, m, m.now - b.Late());
      hide Apply, PushGx;
    } else {
      ItemSafe(o, m, i, b);
      hide FireItem;
    }
  }

  lemma {:induction false} PollSafe(o: Oracle, m: Machine, i: nat, b: Bounds)
    requires Safe(o, m, b) && i <= ITEMS
    ensures Safe(o, Poll(o, m, i), b)
    ensures Poll(o, m, i).now == m.now
    decreases ITEMS - i
  {
    if i < ITEMS {
      if Due(m, i) {
        FireSafe(o, m, i, b);
        PollSafe(o, Fire(o, m, i), i + 1, b);
      } else {
        PollSafe(o, m, i + 1, b);
      }
    }
  }

  lemma {:induction false} FindNextIsLeast(items: seq<Item>, i: nat, next: int)
    requires i <= |items|
    ensures FindNext(items, i, next) <= next
    ensures forall k :: i <= k < |items| && items[k].enabled ==> FindNext(items, i, next) <= items[k].when
    ensures FindNext(items, i, next) == next
         || exists k :: i <= k < |items| && items[k].enabled && items[k].when == FindNext(items, i, next)
    decreases |items| - i
  {
    if i < |items| {
      FindNextIsLeast(items, i + 1, if items[i].enabled then Min(next, items[i].when) else next);
    }
  }

  // -------------------------------------------------------------- one pass

  /** The state at the head of the inner loop while both CPUs run. */
  ghost predicate Paced(o: Oracle, m: Machine, next: int, b: Bounds) {
    var lead := Floor(m);
    && WellFormed(m) && Slack(o, m, b)
    && lead <= m.now
    && (m.arm9.clock <= lead + b.drift || (m.arm9.halted && m.arm9.clock <= next))
    && (m.arm7.clock <= lead + b.drift || (m.arm7.halted && m.arm7.clock <= next))
    && AllAfter(m.items, if m.reschedule then lead - b.Late() else next)
    && Conserved(m.arm9) && Conserved(m.arm7)
  }

  /** The state at the head of the inner loop once ARM7 has handed over. */
  ghost predicate Solo(o: Oracle, m: Machine, next: int, b: Bounds) {
    && WellFormed(m) && Slack(o, m, b)
    && m.now == m.arm9.clock < next + b.drift && m.arm7.clock == next
    && (m.arm7.halted || (!b.calm && next - m.arm9.clock <= b.drift))
    && AllAfter(m.items, if m.reschedule then m.now - b.Late() else next)
    && Conserved(m.arm9) && Conserved(m.arm7)
  }

  /** What a turn of one CPU does to the shared state: an instruction may write
      the event table, and then asks for a reschedule; idling does neither. */
  ghost predicate Turn(o: Oracle, m: Machine, r: Machine, next: int, before: Cpu, after: Cpu, b: Bounds) {
    && (after == before || before.clock < after.clock)
    && (after == before ==> r.items == m.items)
    && (r.items != m.items ==> r.reschedule && after.clock <= before.clock + b.cost)
    && (m.reschedule ==> r.reschedule)
    && (r.reschedule && !m.reschedule ==> after.clock <= before.clock + b.cost)
    && (after.clock <= before.clock + b.cost
        || (after.clock <= Min(next, before.clock + IRQ_WAIT) && (before.halted || Frozen(m))
             && after.halted == before.halted))
    && (Conserved(before) ==> Conserved(after))
    && (forall t :: t <= m.now + b.Lag() && AllAfter(m.items, t) ==> AllAfter(r.items, t))
    && (NeverFreezes(o) && !Frozen(m) ==> !Frozen(r))
  }

  lemma Turn9Facts(o: Oracle, m: Machine, next: int, both: bool, b: Bounds)
    requires Fits(o, b) && WellFormed(m) && Running(m, next, both)
    ensures Turn(o, m, Turn9(o, m, next, both), next, m.arm9, Turn9(o, m, next, both).arm9, b)
  {
    var e := o.arm9(m.tick);
    forall t | t <= m.now + b.Lag() && AllAfter(m.items, t)
      ensures AllAfter(Apply(PushGx(m.items, m.now, e.feed.sent), m.now, e.writes), t)
    {
      PushKeepsAfter(m.items, m.now, e.feed.sent, t);
      ApplyKeepsAfter(PushGx(m.items, m.now, e.feed.sent), m.now, e.writes, t, b.Lag());
    }
  }

  lemma Turn7Facts(o: Oracle, m: Machine, next: int, lead: int, b: Bounds)
    requires Fits(o, b) && WellFormed(m) && lead < next && lead <= m.arm7.clock
    ensures Turn(o, m, Turn7(o, m, next, lead), next, m.arm7, Turn7(o, m, next, lead).arm7, b)
  {
    var e := o.arm7(m.tick);
    forall t | t <= m.now + b.Lag() && AllAfter(m.items, t) ensures AllAfter(Apply(m.items, m.now, e.writes), t) {
      ApplyKeepsAfter(m.items, m.now, e.writes, t, b.Lag());
    }
  }

  /** An idle ARM7 changes nothing but itself. */
  lemma IdleTurn7(o: Oracle, m: Machine, next: int, lead: int)
    requires lead < next && lead <= m.arm7.clock
    ensures var r := Turn7(o, m, next, lead);
            m.arm7.halted || Frozen(m) ==> r == m.(arm7 := r.arm7) && r.arm7.halted == m.arm7.halted
  {
  }

  lemma SoloPass(o: Oracle, m: Machine, next: int, b: Bounds)
    requires Solo(o, m, next, b) && Running(m, next, false)
    ensures Solo(o, Pass(o, m, next, false).m, next, b)
  {
    hide Step9, Step7;
    Turn9Facts(o, m, next, false, b);
    var m9 := Turn9(o, m, next, false);
    assert AllAfter(m.items, m9.arm9.clock - b.Late()) || !m9.reschedule;
  }

  /** The two turns of a pass together: the lead moves on by at most `C`, or
      stays within the horizon, and the event table follows. */
  lemma BothTurns(o: Oracle, m: Machine, next: int, b: Bounds)
    requires Paced(o, m, next, b) && Running(m, next, true)
    ensures var m9 := Turn9(o, m, next, true); var m7 := Turn7(o, m9, next, Floor(m));
            && WellFormed(m7) && Slack(o, m7, b)
            && Floor(m) < Floor(m7) <= Max(Floor(m) + b.cost, next)
            && (m7.reschedule || m7.items == m.items)
            && (m7.reschedule ==> Floor(m7) <= Floor(m) + b.cost)
            && AllAfter(m7.items, if m7.reschedule then Floor(m7) - b.Late() else next)
            && Conserved(m7.arm9) && Conserved(m7.arm7)
  {
    hide Step9, Step7;
    var m9 := Turn9(o, m, next, true);
    var m7 := Turn7(o, m9, next, Floor(m));
    Turn9Facts(o, m, next, true, b);
    Turn7Facts(o, m9, next, Floor(m), b);
    if m7.reschedule {
      assert AllAfter(m.items, Floor(m7) - b.Late());
      assert AllAfter(m9.items, Floor(m7) - b.Late());
    }
  }

  lemma HandOver(o: Oracle, m: Machine, next: int, b: Bounds)
    requires Paced(o, m, next, b) && Running(m, next, true)
    requires !Pass(o, m, next, true).both
    ensures Solo(o, Pass(o, m, next, true).m, next, b)
  {
    hide Step9, Step7;
    var m9 := Turn9(o, m, next, true);
    var m7 := Turn7(o, m9, next, Floor(m));
    BothTurns(o, m, next, b);
    IdleTurn7(o, m9, next, Floor(m));
    assert m9.arm9.clock < next + b.drift by { Turn9Facts(o, m, next, true, b); }
    assert m7.arm7.halted || (!b.calm && next - m9.arm9.clock <= b.drift) by {
      Turn9Facts(o, m, next, true, b);
      Turn7Facts(o, m9, next, Floor(m), b);
    }
    assert m9.reschedule ==> AllAfter(m9.items, m9.arm9.clock - b.Late()) by {
      Turn9Facts(o, m, next, true, b);
      assert m9.reschedule ==> AllAfter(m.items, m9.arm9.clock - b.Late());
    }
  }

  lemma KeepPace(o: Oracle, m: Machine, next: int, b: Bounds)
    requires Paced(o, m, next, b) && Running(m, next, true)
    requires Pass(o, m, next, true).both
    ensures Paced(o, Pass(o, m, next, true).m, next, b)
  {
    hide Step9, Step7;
    var m9 := Turn9(o, m, next, true);
    var m7 := Turn7(o, m9, next, Floor(m));
    BothTurns(o, m, next, b);
    assert m9.arm9.clock <= Floor(m7) + b.drift || (m9.arm9.halted && m9.arm9.clock <= next) by {
      Turn9Facts(o, m, next, true, b);
    }
    assert m7.arm7.clock <= Floor(m7) + b.drift || (m7.arm7.halted && m7.arm7.clock <= next) by {
      Turn9Facts(o, m, next, true, b);
      Turn7Facts(o, m9, next, Floor(m), b);
    }
  }

  // ------------------------------------------------------ the inner loop

  /** How the inner loop leaves the machine, before the roll-back. */
  ghost predicate Stopped(o: Oracle, m: Machine, b: Bounds) {
    && WellFormed(m) && Slack(o, m, b) && Anchored(m)
    && (m.arm9.halted || m.arm9.clock <= m.now + b.drift)
    && (m.arm7.halted || m.arm7.clock <= m.now + b.drift)
    && m.now <= m.arm9.clock
    && (m.arm7.halted || (m.now <= m.arm7.clock + b.drift && (b.calm ==> m.now <= m.arm7.clock)))
    && AllAfter(m.items, m.now - b.Late())
    && Conserved(m.arm9) && Conserved(m.arm7)
  }

  lemma {:induction false} SoloSafe(o: Oracle, m: Machine, next: int, b: Bounds)
    requires Solo(o, m, next, b)
    ensures Stopped(o, Inner(o, m, next, false), b)
    decreases next - m.arm9.clock
  {
    hide Pass;
    if Running(m, next, false) {
      SoloPass(o, m, next, b);
      SoloSafe(o, Pass(o, m, next, false).m, next, b);
    }
  }

  lemma {:induction false} InnerSafe(o: Oracle, m: Machine, next: int, b: Bounds)
    requires Paced(o, m, next, b)
    requires Running(m, next, true) || Stopped(o, m, b)
    ensures Stopped(o, Inner(o, m, next, true), b)
    decreases next - Floor(m)
  {
    if Running(m, next, true) {
      var h := Pass(o, m, next, true);
      BothTurns(o, m, next, b);
      if h.both {
        KeepPace(o, m, next, b);
        InnerSafe(o, h.m, next, b);
      } else {
        HandOver(o, m, next, b);
        SoloSafe(o, h.m, next, b);
      }
    }
  }

  lemma StretchSafe(o: Oracle, m: Machine, b: Bounds)
    requires Safe(o, m, b)
    ensures Safe(o, Stretch(o, m), b)
  {
    hide Inner;
    var start, next := m.(reschedule := false), Horizon(m);
    FindNextIsLeast(m.items, 1, m.items[DISPLAY].when);
    assert AllAfter(start.items, next);
    InnerSafe(o, start, next, b);
    var stop := Inner(o, start, next, true);
    assert Stopped(o, stop, b) && stop.fired == m.fired;
    assert RollBack(stop).items == stop.items;
  }

  lemma IterateSafe(o: Oracle, m: Machine, b: Bounds)
    requires Safe(o, m, b)
    ensures Safe(o, Iterate(o, m), b)
  {
    PollSafe(o, m, 0, b);
    var p := Poll(o, m, 0);
    if !p.frameDone {
      assert Safe(o, PollInterrupts(o, p), b);
      StretchSafe(o, PollInterrupts(o, p), b);
    }
  }
}
