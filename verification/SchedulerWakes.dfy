/**
 What an iteration of the NDS_exec loop does for each CPU: who runs, who sleeps, and
 when the display reaches the landmarks of a frame, in ticks.
 */
module SchedulerWakes {
  import opened SchedulerModel
  import opened SchedulerProofs
  import opened SchedulerRuns

  // ---------------------------------------------------- halted CPUs sleep

  lemma {:induction false} PollKeepsCpus(o: Oracle, m: Machine, i: nat)
    requires WellFormed(m) && i <= ITEMS
    ensures var r := Poll(o, m, i);
            && r.arm9.executed == m.arm9.executed && r.arm9.halted == m.arm9.halted
            && r.arm7.executed == m.arm7.executed && r.arm7.halted == m.arm7.halted
    decreases ITEMS - i
  {
    if i < ITEMS {
      if Due(m, i) && 0 < i { ItemKeeps(o, m, i); }
      hide FireItem, Apply, PushGx;
      PollKeepsCpus(o, if Due(m, i) then Fire(o, m, i) else m, i + 1);
    }
  }

  /** Executed cycles only grow, and not at all while a CPU is halted. */
  predicate Works(a: Cpu, b: Cpu) {
    a.executed <= b.executed && (a.halted ==> b.halted && b.executed == a.executed)
  }

  lemma PassWorks(o: Oracle, m: Machine, next: int, both: bool)
    requires Running(m, next, both)
    ensures var r := Pass(o, m, next, both).m; Works(m.arm9, r.arm9) && Works(m.arm7, r.arm7)
  {
    hide Apply, PushGx;
  }

  lemma {:induction false} InnerWorks(o: Oracle, m: Machine, next: int, both: bool)
    ensures var r := Inner(o, m, next, both); Works(m.arm9, r.arm9) && Works(m.arm7, r.arm7)
    decreases both, next - Lead(m, both)
  {
    if Running(m, next, both) {
      PassWorks(o, m, next, both);
      hide Pass;
      var h := Pass(o, m, next, both);
      InnerWorks(o, h.m, next, h.both);
    }
  }

  /** What the interrupt poll of an iteration leaves awake. */
  predicate Awake9(o: Oracle, m: Machine)
    requires WellFormed(m)
  {
    !m.arm9.halted || o.interrupts(Poll(o, m, 0).tick).arm9
  }

  predicate Awake7(o: Oracle, m: Machine)
    requires WellFormed(m)
  {
    !m.arm7.halted || o.interrupts(Poll(o, m, 0).tick).arm7
  }

  /** A halted CPU that no interrupt wakes executes nothing. */
  lemma {:induction false} HaltedSleeps(o: Oracle, m: Machine)
    requires WellFormed(m)
    ensures !Awake9(o, m) ==> Iterate(o, m).arm9.executed == m.arm9.executed
    ensures !Awake7(o, m) ==> Iterate(o, m).arm7.executed == m.arm7.executed
  {
    PollKeepsCpus(o, m, 0);
    var p := Poll(o, m, 0);
    var q := PollInterrupts(o, p);
    InnerWorks(o, q.(reschedule := false), Horizon(q), true);
    hide Poll, Inner, Horizon;
  }

  // ------------------------------------------------ woken CPUs run again

  /** The CPUs get time, on a bus that is not frozen. */
  predicate Granted(o: Oracle, m: Machine)
    requires WellFormed(m)
  {
    var p := Poll(o, m, 0);
    !p.frameDone && !Frozen(p) && Floor(p) < Horizon(p)
  }

  lemma FirstPass(o: Oracle, m: Machine, next: int)
    requires Running(m, next, true) && !Frozen(m)
    ensures var h := Pass(o, m, next, true).m;
            && Works(m.arm9, h.arm9) && Works(m.arm7, h.arm7)
            && (m.arm9.clock <= m.arm7.clock && !m.arm9.halted ==> m.arm9.executed < h.arm9.executed)
            && (m.arm7.clock <= m.arm9.clock && !m.arm7.halted && !Frozen(Turn9(o, m, next, true)) ==>
                  m.arm7.executed < h.arm7.executed)
  {
    hide Apply, PushGx;
  }

  /** If it is not ahead of ARM7, ARM9 executes in the iteration exactly if it was awake or
      an interrupt wakes it. */
  lemma {:induction false} Arm9RunsIff(o: Oracle, m: Machine)
    requires WellFormed(m) && Granted(o, m)
    requires Poll(o, m, 0).arm9.clock <= Poll(o, m, 0).arm7.clock
    ensures m.arm9.executed < Iterate(o, m).arm9.executed <==> Awake9(o, m)
  {
    HaltedSleeps(o, m);
    PollKeepsCpus(o, m, 0);
    var q := PollInterrupts(o, Poll(o, m, 0));
    var start, next := q.(reschedule := false), Horizon(q);
    FirstPass(o, start, next);
    var h := Pass(o, start, next, true);
    InnerWorks(o, h.m, next, h.both);
    hide Poll, Pass, Horizon;
  }

  /** ARM9's instruction stalls the bus in front of ARM7's. */
  predicate StallsFirst(o: Oracle, m: Machine)
    requires WellFormed(m)
  {
    var p := Poll(o, m, 0);
    var f := o.arm9(p.tick + 1).feed;
    p.arm9.clock == p.arm7.clock && Awake9(o, m) && f.port && p.gxSize + Min(f.before, f.sent) >= 255
  }

  /** A bus stalled on a full FIFO, or frozen by DMA, lets nobody work. */
  lemma {:induction false} StuckBusRests(o: Oracle, m: Machine, next: int, both: bool)
    requires true in m.freezes || (m.gxStall && 255 <= m.gxSize)
    ensures var r := Inner(o, m, next, both); r.arm9.executed == m.arm9.executed && r.arm7.executed == m.arm7.executed
    decreases both, next - Lead(m, both)
  {
    if Running(m, next, both) {
      hide Apply, PushGx;
      var h := Pass(o, m, next, both);
      StuckBusRests(o, h.m, next, h.both);
    }
  }

  lemma StallingPass(o: Oracle, m: Machine, next: int)
    requires Running(m, next, true) && !Frozen(m) && m.arm7.clock <= m.arm9.clock
    ensures var m9, h := Turn9(o, m, next, true), Pass(o, m, next, true).m;
            && (Frozen(m9) <==> && m.arm9.clock == m.arm7.clock && !m.arm9.halted && o.arm9(m.tick).feed.port
                                && m.gxSize + Min(o.arm9(m.tick).feed.before, o.arm9(m.tick).feed.sent) >= 255)
            && (Frozen(m9) ==> h.arm7.executed == m.arm7.executed && h.gxStall && 255 <= h.gxSize)
  {
    hide Apply, PushGx;
  }

  /** If it is not ahead of ARM9, ARM7 executes in the iteration exactly if it was awake or
      an interrupt wakes it, unless ARM9 comes first and stalls the bus. */
  lemma {:induction false} Arm7RunsIff(o: Oracle, m: Machine)
    requires WellFormed(m) && Granted(o, m)
    requires Poll(o, m, 0).arm7.clock <= Poll(o, m, 0).arm9.clock
    ensures m.arm7.executed < Iterate(o, m).arm7.executed <==> Awake7(o, m) && !StallsFirst(o, m)
  {
    HaltedSleeps(o, m);
    PollKeepsCpus(o, m, 0);
    var q := PollInterrupts(o, Poll(o, m, 0));
    InnerDecides(o, m);
    hide Poll, Inner, Horizon, Iterate;
    if Awake7(o, m) { Arm7Inside(o, q.(reschedule := false), Horizon(q)); }
  }

  lemma InnerDecides(o: Oracle, m: Machine)
    requires WellFormed(m) && !Poll(o, m, 0).frameDone
    ensures var q := PollInterrupts(o, Poll(o, m, 0));
            Iterate(o, m).arm7.executed == Inner(o, q.(reschedule := false), Horizon(q), true).arm7.executed
  {
    hide Poll, Inner, Horizon;
  }

  lemma Arm7Inside(o: Oracle, m: Machine, next: int)
    requires Running(m, next, true) && !Frozen(m) && m.arm7.clock <= m.arm9.clock && !m.arm7.halted
    ensures m.arm7.executed < Inner(o, m, next, true).arm7.executed
       <==> !(m.arm9.clock == m.arm7.clock && !m.arm9.halted && o.arm9(m.tick).feed.port
              && m.gxSize + Min(o.arm9(m.tick).feed.before, o.arm9(m.tick).feed.sent) >= 255)
  {
    FirstPass(o, m, next);
    StallingPass(o, m, next);
    hide Pass, Turn9;
    var h := Pass(o, m, next, true);
    InnerWorks(o, h.m, next, h.both);
    if Frozen(Turn9(o, m, next, true)) { StuckBusRests(o, h.m, next, h.both); }
  }

  /** No CPU executes on a bus that a DMA channel freezes, or a stall at a full FIFO. */
  lemma {:induction false} FrozenBusRests(o: Oracle, m: Machine)
    requires WellFormed(m)
    requires var p := Poll(o, m, 0); true in p.freezes || (p.gxStall && 255 <= p.gxSize)
    ensures var r := Iterate(o, m); r.arm9.executed == m.arm9.executed && r.arm7.executed == m.arm7.executed
  {
    PollKeepsCpus(o, m, 0);
    var q := PollInterrupts(o, Poll(o, m, 0));
    StuckBusRests(o, q.(reschedule := false), Horizon(q), true);
    hide Poll, Inner, Horizon;
  }

  /** A halted or frozen CPU idles up to the horizon, at most 4000 ticks at a time, and
      ARM9's idle turn ends a stall exactly if the FIFO holds fewer than 255 entries; the
      horizon itself is at most 4000 ticks away. */
  lemma IdleTurns(o: Oracle, m: Machine, next: int)
    ensures m.arm9.halted || Frozen(m) ==>
              var r := Step9(o, m, next);
              && r.arm9.clock == (if next < m.arm9.clock + 4000 then next else m.arm9.clock + 4000)
              && r.arm9.idle - m.arm9.idle == r.arm9.clock - m.arm9.clock && r.arm9.executed == m.arm9.executed
              && (r.gxStall <==> m.gxStall && m.gxSize >= 255) && r.items == m.items
    ensures m.arm7.halted || Frozen(m) ==>
              var r := Step7(o, m, next);
              && r.arm7.clock == (if next < m.arm7.clock + 4000 then next else m.arm7.clock + 4000)
              && r.arm7.idle - m.arm7.idle == r.arm7.clock - m.arm7.clock && r.arm7.executed == m.arm7.executed
              && r.gxStall == m.gxStall && r.items == m.items
    ensures WellFormed(m) ==> Horizon(m) <= m.now + 4000
  {
    if WellFormed(m) { FindNextIsLeast(m.items, 1, m.items[DISPLAY].when); }
  }

  // ------------------------------------------------------- the last write

  /** Of the writes of one call to an event, the last one counts. */
  lemma {:induction false} LastWriteCounts(items: seq<Item>, now: int, before: seq<Write>, w: Write, after: seq<Write>)
    requires 1 <= w.item < |items| && w.item != GX_FIFO && Spares(after, w.item)
    ensures var was, r := Apply(items, now, before), Apply(items, now, before + [w] + after)[w.item];
            match w
            case Program(_, delay) => r.enabled && r.when == now + delay
            case Cancel(_) => !r.enabled
            case Trigger(k) =>
              if k < 12 || (was[k].enabled && now < was[k].when) then r == was[k] else r.enabled && r.when == now
    decreases |before|
  {
    if before == [] {
      assert [] + [w] + after == [w] + after && ([w] + after)[1..] == after;
      ApplySpares(ApplyOne(items, now, w), now, after, w.item);
    } else {
      assert (before + [w] + after)[1..] == before[1..] + [w] + after;
      LastWriteCounts(ApplyOne(items, now, before[0]), now, before[1..], w, after);
    }
  }

  // ------------------------------------------------------- the single events

  /** What each event does to itself, to the geometry FIFO and to the bus, by its place in
      the table: square root and divider are over; the FIFO gives up to 127 entries and
      comes back a tick later, unless it is empty or waits for a swap; timers come again;
      a DMA channel ends its freeze of the bus, or copies and comes back after that. */
  lemma EventsAre(o: Oracle, m: Machine, i: nat)
    requires WellFormed(m) && 1 <= i < 20
    ensures var r, h := Fire(o, m, i), o.hardware(m.tick, i);
            && |r.items| == 20 && (i < 3 ==> !r.items[i].enabled)
            && (i == 3 ==>
                  && r.items[3].enabled == (!m.swapping && m.gxSize > 0)
                  && (r.items[3].enabled ==> r.items[3].when == m.now + 1)
                  && r.swapping == (m.swapping || (m.gxSize > 0 && h.swaps))
                  && r.gxSize == if m.swapping || m.gxSize < 127 then (if m.swapping then m.gxSize else 0)
                                 else m.gxSize - 127)
            && (4 <= i < 12 ==> r.items[i].enabled && r.items[i].when == m.now + 1 + h.extra)
            && (i < 12 ==> r.freezes == m.freezes && r.gxStall == m.gxStall && (i == 3 || r.gxSize == m.gxSize))
            && (12 <= i ==>
                  && r.items[i].enabled == h.copies && (h.copies ==> r.items[i].when == m.now + h.takes)
                  && (forall k :: 0 <= k < 4 ==> r.freezes[k] == if i == 12 + k then h.copies else m.freezes[k])
                  && r.gxSize == m.gxSize + if h.copies && i < 16 then h.feed.sent else 0)
  {
    hide Apply, PushGx;
  }

  // ------------------------------------------------------------ the raster

  /** Where in a frame the next display event lies: a line takes 4260 ticks. */
  function RasterTime(m: Machine): int
    requires WellFormed(m)
  {
    match m.phase
    case 0 => 4260 * if m.line == 262 then 0 else m.line + 1
    case 1 => 4260 * m.line + 12
    case 2 => 4260 * m.line + 96
    case _ => 4260 * m.line + 3204
  }

  /** The display event is due at that tick of some frame of 263 lines. */
  predicate OnRaster(m: Machine)
    requires WellFormed(m)
  {
    (m.items[DISPLAY].when - RasterTime(m)) % 1_120_380 == 0
  }

  lemma DisplayOnRaster(o: Oracle, m: Machine)
    requires WellFormed(m) && OnRaster(m)
    ensures OnRaster(FireDisplay(o, m))
  {
    hide Apply, PushGx;
  }

  lemma {:induction false} PollOnRaster(o: Oracle, m: Machine, i: nat)
    requires WellFormed(m) && OnRaster(m) && i <= ITEMS
    ensures OnRaster(Poll(o, m, i))
    decreases ITEMS - i
  {
    if i < ITEMS {
      if Due(m, i) { if i == DISPLAY { DisplayOnRaster(o, m); } else { ItemKeeps(o, m, i); } }
      hide FireItem, FireDisplay;
      PollOnRaster(o, if Due(m, i) then Fire(o, m, i) else m, i + 1);
    }
  }

  lemma IterateOnRaster(o: Oracle, m: Machine)
    requires WellFormed(m) && OnRaster(Poll(o, m, 0))
    ensures OnRaster(Iterate(o, m))
  {
    hide Poll, Inner, Horizon;
    var q := PollInterrupts(o, Poll(o, m, 0));
    assert SameFrame(Inner(o, q.(reschedule := false), Horizon(q), true), q);
  }

  /** In every run from reset, frames follow each other every 1120380 ticks. */
  lemma {:induction false} RunOnRaster(o: Oracle, n: nat)
    ensures OnRaster(Run(o, Boot(), n))
  {
    var boot := Boot();
    if n > 0 {
      RunOnRaster(o, n - 1);
      var s := Run(o, boot, n - 1).(frameDone := false);
      PollOnRaster(o, s, 0);
      IterateOnRaster(o, s);
      hide Poll, Iterate;
    }
  }

  /** The landmarks of a frame: it is over when line 262 begins; the vertical blank ends a
      buffer swap at the beginning of line 192, which starts the geometry FIFO again, and
      12 ticks later the idle counters are flushed.  Nothing else does any of this. */
  lemma Landmarks(o: Oracle, m: Machine)
    requires WellFormed(m) && OnRaster(m)
    ensures var r, t := FireDisplay(o, m), m.items[DISPLAY].when % 1_120_380;
            && r.frameDone == (m.frameDone || t == 262 * 4260)
            && r.swapping == (m.swapping && t != 192 * 4260)
            && (m.swapping && t == 192 * 4260 ==> r.items[GX_FIFO].enabled)
            && (t == 192 * 4260 + 12 ==> r.arm9.idle == 0 && r.arm7.idle == 0)
            && (t != 192 * 4260 + 12 ==> r.arm9 == m.arm9 && r.arm7 == m.arm7)
  {
    hide Apply;
    var w, p := m.items[DISPLAY].when, RasterTime(m);
    assert 0 <= p < 1_120_380;
    Residue(w, p);
  }

  lemma Residue(w: int, p: int)
    requires 0 <= p < 1_120_380 && (w - p) % 1_120_380 == 0
    ensures w % 1_120_380 == p
  {
  }
}
