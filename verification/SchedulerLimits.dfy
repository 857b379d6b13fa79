/**
 How sharp the bounds on the scheduler's runs are: runs from reset that reach them,
 and when exactly a freezing bus makes events later than one instruction.
 */
module SchedulerLimits {
  import opened SchedulerModel
  import opened SchedulerProofs
  import opened SchedulerRuns

  // ------------------------------------------------------- single steps

  lemma {:induction false} PollQuiet(o: Oracle, m: Machine, i: nat)
    requires WellFormed(m) && i <= ITEMS && Clear(m.items, m.now, i, ITEMS)
    ensures Poll(o, m, i) == m
    decreases ITEMS - i
  {
    if i < ITEMS { PollQuiet(o, m, i + 1); }
  }

  /** An iteration in which nothing is due and no CPU wakes is CPU time only. */
  lemma {:induction false} QuietIteration(o: Oracle, m: Machine)
    requires WellFormed(m) && !m.frameDone && Clear(m.items, m.now, 0, ITEMS)
    requires o.interrupts(m.tick) == Wake(false, false)
    ensures Iterate(o, m) == Stretch(o, m.(tick := m.tick + 1))
  {
    PollQuiet(o, m, 0);
  }

  /** The first iteration starts line 0; the next event is 12 ticks away. */
  lemma {:induction false} FirstIteration(o: Oracle)
    requires o.display(0) == [] && o.interrupts(1) == Wake(false, false)
    ensures Iterate(o, Boot()) == Stretch(o, Started()) && Run(o, Boot(), 1) == Iterate(o, Boot())
    ensures WellFormed(Started()) && Horizon(Started()) == 12
  {
    var f := Fire(o, Boot(), DISPLAY);
    PollQuiet(o, f, 1);
    assert Poll(o, Boot(), 0) == Poll(o, f, 1) == f;
    assert PollInterrupts(o, f) == Started();
    FindNextIsLeast(Started().items, 1, 12);
    assert Run(o, Boot(), 0) == Boot();
  }

  function Started(): Machine {
    Boot().(items := Boot().items[DISPLAY := Item(true, 12)], phase := 1, line := 0, tick := 2,
            fired := [Fired(DISPLAY, 0, 0)])
  }

  /** Both CPUs run one instruction, and that of ARM9 asks for a reschedule. */
  lemma {:induction false} BothExecute(o: Oracle, m: Machine)
    requires WellFormed(m) && m.arm9.clock == m.arm7.clock == m.now < Horizon(m)
    requires !m.arm9.halted && !m.arm7.halted && !Frozen(m)
    requires var e9, e7 := o.arm9(m.tick), o.arm7(m.tick + 1);
             !e9.feed.port && !e9.halts && e9.reschedules && !e7.halts
    ensures var r := Stretch(o, m); var e9, e7 := o.arm9(m.tick), o.arm7(m.tick + 1);
            && r.arm9.clock == m.now + e9.Cost() && r.arm7.clock == m.now + 2 * e7.Cost() && r.now == Floor(r)
            && r.items == Apply(Apply(PushGx(m.items, m.now, e9.feed.sent), m.now, e9.writes), m.now, e7.writes)
            && r.gxSize == m.gxSize + e9.feed.sent && r.tick == m.tick + 2
            && !r.arm9.halted && !r.arm7.halted && !Frozen(r) && SameFrame(r, m)
  {
    hide Apply, PushGx;
    var start, next := m.(reschedule := false), Horizon(m);
    var m9 := Turn9(o, start, next, true);
    var m7 := Turn7(o, m9, next, Floor(m));
    assert Inner(o, start, next, true) == m7.(now := Floor(m7));
  }

  // ---------------------------------------------------- exactly C late

  /** A script whose first ARM9 instruction takes `C` ticks and starts a DMA channel
      at once. */
  function Impatient(C: nat): Oracle
    requires C >= 2 && C % 2 == 0
  {
    Oracle(t => Exec(C - 1, false, NO_FEED, true, if t == 2 then [Program(DMA_0, 0)] else []),
           _ => Exec(C / 2 - 1, false, NO_FEED, true, []),
           _ => [], (_, _) => NO_REACTION, _ => Wake(false, false))
  }

  lemma OneWrite(items: seq<Item>, now: int, w: Write)
    ensures Apply(items, now, [w]) == ApplyOne(items, now, w)
  {
    assert Apply(items, now, [w]) == Apply(ApplyOne(items, now, w), now, [w][1..]);
  }

  lemma {:induction false} ImpatientStart(C: nat) returns (o: Oracle, r: Machine)
    requires C >= 2 && C % 2 == 0
    ensures o == Impatient(C) && r == Run(o, Boot(), 1) && WellFormed(r) && r.items[DMA_0] == Item(true, 0)
    ensures r.now == C
    ensures r.tick == 4
  {
    hide Run, Iterate, Stretch, Apply, Horizon;
    o := Impatient(C);
    var start := Started();
    FirstIteration(o);
    BothExecute(o, start);
    hide Boot, Started;
    OneWrite(start.items, 0, Program(DMA_0, 0));
    assert Apply(ApplyOne(start.items, 0, Program(DMA_0, 0)), 0, []) == ApplyOne(start.items, 0, Program(DMA_0, 0)) by {
      NoWrite(ApplyOne(start.items, 0, Program(DMA_0, 0)), 0);
    }
    r := Run(o, Boot(), 1);
  }

  lemma NoWrite(items: seq<Item>, now: int)
    ensures Apply(items, now, []) == items
  {
  }

  lemma ImpatientFits(C: nat)
    requires C >= 2 && C % 2 == 0
    ensures var o := Impatient(C);
            && Bounded(o, C) && NeverFreezes(o) && Progressive(o)
            && forall to: nat :: Quiet(o, DMA_0, 4, to, true)
  {
  }

  /** The bound of CalmRunsArePunctual is reached: an instruction that starts a DMA
      channel makes it wait for all its own ticks. */
  lemma {:induction false} ExactlyOneInstructionLate(C: nat) returns (o: Oracle)
    requires C >= 2 && C % 2 == 0
    ensures Bounded(o, C) && NeverFreezes(o) && Fired(DMA_0, 0, C) in Run(o, Boot(), 2).fired
  {
    var r;
    o, r := ImpatientStart(C);
    ImpatientFits(C);
    hide Run, Quiet, Iterate, Impatient;
    RunsAfterWait(o, r.(frameDone := false), DMA_0, true);
    assert Run(o, Boot(), 2) == Iterate(o, r.(frameDone := false)) by { SecondIteration(o); }
  }

  lemma SecondIteration(o: Oracle)
    ensures Run(o, Boot(), 2) == Iterate(o, Run(o, Boot(), 1).(frameDone := false))
  {
    hide Iterate;
    var boot := Boot();
    assert Run(o, boot, 2) == Iterate(o, Run(o, boot, 1).(frameDone := false));
  }

  /** The hypotheses of UnmovedEventIsPunctual hold of some run, and nothing ever moves
      its event. */
  lemma {:induction false} UnmovedEventsExist() returns (o: Oracle, r: Machine, k: nat)
    ensures Fits(o, Bounds(2, 2, true, false)) && Progressive(o) && Reachable(o, r) && WellFormed(r)
    ensures 1 <= k < ITEMS && r.items[k].enabled && forall to: nat :: Still(o, r, k, to)
  {
    k := DMA_0;
    o, r := ImpatientStart(2);
    ImpatientFits(2);
    hide Run, Impatient;
    forall to: nat ensures Still(o, r, k, to) { StillWhen(o, r, k, to); }
  }

  lemma StillWhen(o: Oracle, r: Machine, k: nat, to: nat)
    requires WellFormed(r) && k == DMA_0 && Quiet(o, k, r.tick, to, true)
    ensures Still(o, r, k, to)
  {
    var cpus := !EndsFreeze(r, k);
    forall t: nat | r.tick <= t < to ensures Hush(o, k, t, cpus) { assert Hush(o, k, t, true); }
  }

  // ------------------------------------------------- what a freeze can do

  /** With ARM9 already past the horizon, an idle ARM7 hands over at once and
      the current time jumps to ARM9's clock, over every event in between. */
  lemma {:induction false} HandOverJumps(o: Oracle, m: Machine)
    requires WellFormed(m) && (m.arm7.halted || Frozen(m))
    requires m.arm7.clock < Horizon(m) <= Min(m.arm9.clock, m.arm7.clock + IRQ_WAIT)
    ensures var r := Stretch(o, m);
            && r.now == m.arm9.clock && r.items == m.items && r.tick == m.tick && SameFrame(r, m)
            && r.arm9 == m.arm9 && r.arm7.halted == m.arm7.halted && (m.arm7.halted ==> r.arm7.clock == r.now)
            && r.gxStall == m.gxStall && r.gxSize == m.gxSize
  {
    var start, next := m.(reschedule := false), Horizon(m);
    var m7 := Turn7(o, start, next, Floor(m));
    assert Turn9(o, start, next, true) == start;
    assert Inner(o, start, next, true) == m7.(now := m7.arm9.clock);
  }

  /** A thawing bus leaves ARM9 a whole idle jump ahead of ARM7, whose next
      instruction can then program an event far behind ARM9. */
  lemma {:induction false} ThawLeavesArm9Ahead(o: Oracle, m: Machine)
    requires WellFormed(m) && m.arm9.clock == m.arm7.clock == m.now < Horizon(m)
    requires m.gxStall && m.gxSize < FIFO_FULL && true !in m.freezes && !m.arm9.halted && !m.arm7.halted
    requires var e := o.arm7(m.tick); e.reschedules && m.now + 2 * e.Cost() < Horizon(m)
    ensures var r := Stretch(o, m); var e := o.arm7(m.tick);
            && r.arm9.clock == Horizon(m) && r.now == r.arm7.clock == m.now + 2 * e.Cost()
            && r.arm7.halted == e.halts && !r.arm9.halted && r.items == Apply(m.items, m.now, e.writes) && !Frozen(r)
            && r.tick == m.tick + 1 && SameFrame(r, m)
  {
    var start, next := m.(reschedule := false), Horizon(m);
    var m9 := Turn9(o, start, next, true);
    var m7 := Turn7(o, m9, next, Floor(m));
    assert Inner(o, start, next, true) == m7.(now := Floor(m7));
  }

  // ------------------------------------- exactly when events fall behind

  /** ARM9 is past some event by more than `C`, and ARM7, which has not reached it,
      idles up to it or can after its cheapest instruction. */
  predicate Overtaken(m: Machine, C: int)
    requires WellFormed(m)
  {
    && m.arm7.clock < Horizon(m) && (m.arm7.halted || Frozen(m) || m.arm7.clock + 2 < Horizon(m))
    && exists i :: 0 <= i < ITEMS && m.items[i].enabled && m.items[i].when + C < m.arm9.clock
  }

  /** No enabled event is more than `C` behind the clock. */
  predicate OnTime(m: Machine, C: int) { AllAfter(m.items, m.now - C) }

  lemma {:induction false} HorizonBelow(m: Machine)
    requires WellFormed(m)
    ensures AllAfter(m.items, Horizon(m))
  {
    FindNextIsLeast(m.items, 1, m.items[DISPLAY].when);
  }

  /** An idle ARM7 hands over to an ARM9 past the horizon, however many jumps away. */
  lemma {:induction false} IdleHandsOver(o: Oracle, m: Machine, next: int)
    requires m.arm7.halted || Frozen(m)
    requires m.arm7.clock < next <= m.arm9.clock && !m.reschedule
    ensures var r := Inner(o, m, next, true); r.now == m.arm9.clock && r.items == m.items
    decreases next - m.arm7.clock
  {
    var h := Pass(o, m, next, true);
    assert Turn9(o, m, next, true) == m;
    if h.both { IdleHandsOver(o, h.m, next); }
  }

  /** A script in which ARM7 halts at once. */
  function Halting(): Oracle {
    Oracle(_ => Exec(0, false, NO_FEED, false, []), _ => Exec(0, true, NO_FEED, false, []),
           _ => [], (_, _) => NO_REACTION, _ => Wake(false, false))
  }

  lemma {:induction false} HaltingFallsBehind(m: Machine, C: int)
    requires WellFormed(m) && 2 <= C && Overtaken(m, C)
    ensures !OnTime(Stretch(Halting(), m), C)
  {
    var o, start, next := Halting(), m.(reschedule := false), Horizon(m);
    HorizonBelow(m);
    if m.arm7.halted || Frozen(m) {
      IdleHandsOver(o, start, next);
    } else {
      var h := Pass(o, start, next, true);
      assert Turn9(o, start, next, true) == start;
      assert h.both && h.m.arm7.halted && h.m.arm9 == m.arm9 && h.m.items == m.items;
      IdleHandsOver(o, h.m, next);
    }
    hide Inner;
    var i :| 0 <= i < ITEMS && m.items[i].enabled && m.items[i].when + C < m.arm9.clock;
    assert Stretch(o, m).items[i].when < Stretch(o, m).now - C;
  }

  /** While it is not past them, ARM9 stays within `C` of the events. */
  predicate Tied(m: Machine, next: int, both: bool, C: int) {
    && WellFormed(m) && Floor(m) <= m.now && !m.reschedule && (both || m.now == m.arm9.clock)
    && AllAfter(m.items, next) && AllAfter(m.items, m.arm9.clock - C)
  }

  /** Both turns: within `C` of the lead after a reschedule, else at most at the
      horizon. */
  lemma {:induction false} TiedTurns(o: Oracle, m: Machine, next: int, C: int)
    requires Bounded(o, C) && 0 < C && Tied(m, next, true, C) && Running(m, next, true)
    ensures var m9 := Turn9(o, m, next, true); var m7 := Turn7(o, m9, next, Floor(m));
            && WellFormed(m7) && AllAfter(m7.items, Floor(m))
            && (m7.reschedule ==> Floor(m7) <= Floor(m) + C)
            && (m7.reschedule && HandsOver(m9, m7, next, Floor(m)) ==> m7.arm9.clock <= Floor(m) + C)
            && (!m7.reschedule ==> m7.items == m.items && m7.arm9.clock <= Max(m.arm9.clock, Max(Floor(m) + C, next)))
  {
    var b, m9 := Bounds(C, Max(C, MAX_WORK), false, false), Turn9(o, m, next, true);
    hide Step9, Step7;
    IdleTurn7(o, m9, next, Floor(m));
    Turn9Facts(o, m, next, true, b);
    assert AllAfter(m.items, Floor(m)) && AllAfter(m9.items, Floor(m));
    assert m9.reschedule ==> m9.arm9.clock <= Floor(m) + C;
    assert !m9.reschedule ==> m9.items == m.items;
    assert m9.arm9.clock <= Max(m.arm9.clock, Max(Floor(m) + C, next));
    hide Turn9;
    Turn7Facts(o, m9, next, Floor(m), b);
  }

  lemma {:induction false} TiedPass(o: Oracle, m: Machine, next: int, both: bool, C: int)
    requires Bounded(o, C) && 0 < C && Tied(m, next, both, C) && Running(m, next, both)
    ensures var h := Pass(o, m, next, both);
            OnTime(h.m, C) && WellFormed(h.m) && (h.m.reschedule || Tied(h.m, next, h.both, C))
  {
    if both {
      hide Turn9, Turn7, HandsOver;
      TiedTurns(o, m, next, C);
    } else {
      TiedSolo(o, m, next, C);
    }
  }

  lemma {:induction false} TiedSolo(o: Oracle, m: Machine, next: int, C: int)
    requires Bounded(o, C) && 0 < C && Tied(m, next, false, C) && Running(m, next, false)
    ensures var h := Pass(o, m, next, false);
            OnTime(h.m, C) && WellFormed(h.m) && (h.m.reschedule || Tied(h.m, next, false, C))
  {
    hide Step9;
    Turn9Facts(o, m, next, false, Bounds(C, Max(C, MAX_WORK), false, false));
    assert AllAfter(m.items, m.now);
  }

  lemma {:induction false} TiedInner(o: Oracle, m: Machine, next: int, both: bool, C: int)
    requires Bounded(o, C) && 0 < C && WellFormed(m) && OnTime(m, C)
    requires m.reschedule || Tied(m, next, both, C)
    ensures OnTime(Inner(o, m, next, both), C)
    decreases both, next - Lead(m, both)
  {
    hide Pass, Tied, OnTime;
    if Running(m, next, both) {
      TiedPass(o, m, next, both, C);
      var h := Pass(o, m, next, both);
      TiedInner(o, h.m, next, h.both, C);
    }
  }

  /** Unless ARM9 has overtaken an event, CPU time leaves none behind. */
  lemma {:induction false} StretchOnTime(o: Oracle, m: Machine, C: int)
    requires WellFormed(m) && Bounded(o, C) && 0 < C && Floor(m) <= m.now && OnTime(m, C) && !Overtaken(m, C)
    ensures OnTime(Stretch(o, m), C)
  {
    var start, next := m.(reschedule := false), Horizon(m);
    HorizonBelow(m);
    if Running(start, next, true) {
      if AllAfter(m.items, m.arm9.clock - C) {
        TiedInner(o, start, next, true, C);
      } else {
        ShortRun(o, start, next, C);
      }
    }
  }

  /** An ARM7 behind that must run, and whose first instruction takes it past the
      horizon. */
  lemma {:induction false} ShortRun(o: Oracle, m: Machine, next: int, C: int)
    requires WellFormed(m) && Bounded(o, C) && 0 < C && Floor(m) <= m.now && AllAfter(m.items, next)
    requires m.arm7.clock < next < m.arm9.clock && !m.arm7.halted && !Frozen(m) && next <= m.arm7.clock + 2
    requires !m.reschedule
    ensures OnTime(Inner(o, m, next, true), C)
  {
    var b := Bounds(C, Max(C, MAX_WORK), false, false);
    assert Turn9(o, m, next, true) == m;
    Turn7Facts(o, m, next, Floor(m), b);
    var m7 := Turn7(o, m, next, Floor(m));
    assert AllAfter(m.items, Floor(m));
    assert Inner(o, m, next, true) == m7.(now := Floor(m7));
  }

  /** Some script makes the CPUs leave an event more than `C` behind, with no
      instruction longer than `C`, exactly if ARM9 has overtaken one. */
  lemma {:induction false} EventsFallBehindIff(m: Machine, C: int)
    requires WellFormed(m) && 2 <= C && Floor(m) <= m.now && OnTime(m, C)
    ensures (exists o :: Bounded(o, C) && !OnTime(Stretch(o, m), C)) <==> Overtaken(m, C)
  {
    hide Stretch, Overtaken, OnTime;
    if Overtaken(m, C) {
      HaltingFallsBehind(m, C);
      assert Bounded(Halting(), C);
    } else {
      forall o | Bounded(o, C) ensures OnTime(Stretch(o, m), C) { StretchOnTime(o, m, C); }
    }
  }

  /** Overtaking takes a lead of more than `C`, which ARM9 never has while the bus
      does not freeze. */
  lemma {:induction false} OvertakenNeedsLead(m: Machine, C: int)
    requires WellFormed(m) && Overtaken(m, C)
    ensures m.arm9.clock > m.arm7.clock + C
  {
    HorizonBelow(m);
    hide Horizon;
  }

  lemma {:induction false} PollOnTime(o: Oracle, m: Machine, i: nat, C: int)
    requires WellFormed(m) && i <= ITEMS && 0 < C && OnTime(m, C) && Punctual(m.fired, C)
    ensures var r := Poll(o, m, i); OnTime(r, C) && Punctual(r.fired, C) && r.now == m.now
    decreases ITEMS - i
  {
    if i < ITEMS {
      if Due(m, i) {
        FireOnTime(o, m, i, C);
        PollOnTime(o, Fire(o, m, i), i + 1, C);
      } else {
        PollOnTime(o, m, i + 1, C);
      }
    }
  }

  lemma {:induction false} FireOnTime(o: Oracle, m: Machine, i: nat, C: int)
    requires WellFormed(m) && i < ITEMS && 0 < C && OnTime(m, C) && Punctual(m.fired, C) && Due(m, i)
    ensures var r := Fire(o, m, i); OnTime(r, C) && Punctual(r.fired, C) && r.now == m.now
  {
    var t := m.now - C;
    if i == DISPLAY { DisplayKeepsAfter(o, m, t); } else { ItemKeepsAfter(o, m, i, t); }
    FireExtendsLog(o, m, i);
    hide FireItem, FireDisplay;
  }

  /** No iteration of a run gives its CPUs time in an overtaken state. */
  ghost predicate NeverOvertaken(o: Oracle, n: nat, C: int) {
    forall j: nat :: j < n ==> !Overtaken(Polled(o, Run(o, Boot(), j)), C)
  }

  /** The machine as the CPU part of the next iteration finds it. */
  function Polled(o: Oracle, m: Machine): (r: Machine)
    requires WellFormed(m)
    ensures WellFormed(r)
  {
    PollInterrupts(o, Poll(o, m.(frameDone := false), 0))
  }

  lemma {:induction false} IterateOnTime(o: Oracle, m: Machine, C: int)
    requires WellFormed(m) && Bounded(o, C) && 0 < C && Floor(m) <= m.now && OnTime(m, C) && Punctual(m.fired, C)
    requires !Overtaken(Polled(o, m), C)
    ensures var r := Iterate(o, m.(frameDone := false));
            WellFormed(r) && Floor(r) <= r.now && OnTime(r, C) && Punctual(r.fired, C)
  {
    var s := m.(frameDone := false);
    PollOnTime(o, s, 0, C);
    PollKeepsClocks(o, s, 0);
    IterateAdvances(o, s);
    hide Poll, Stretch, Overtaken;
    if !Poll(o, s, 0).frameDone {
      StretchOnTime(o, Polled(o, m), C);
      StretchAdvances(o, Polled(o, m));
    }
  }

  /** However the bus freezes, a run keeps every event within one instruction of its
      time until ARM9 overtakes one. */
  lemma {:induction false} PunctualUntilOvertaken(o: Oracle, n: nat, C: int)
    requires Bounded(o, C) && 0 < C && NeverOvertaken(o, n, C)
    ensures var r := Run(o, Boot(), n); Punctual(r.fired, C) && OnTime(r, C) && Floor(r) <= r.now
  {
    var boot := Boot();
    if n > 0 {
      PunctualUntilOvertaken(o, n - 1, C);
      assert !Overtaken(Polled(o, Run(o, boot, n - 1)), C);
      hide Iterate, Polled, Overtaken;
      IterateOnTime(o, Run(o, boot, n - 1), C);
    }
  }
}
