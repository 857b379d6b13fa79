/**
 Runs whose bus freezes: DMA copies at will, and stalls of the geometry FIFO, as long
 as a stall ends within a tick of the FIFO having room again.
 */
module SchedulerFreeze {
  import opened SchedulerModel
  import opened SchedulerProofs
  import opened SchedulerRuns
  import opened SchedulerLimits

  // ------------------------------------------------ how far ARM9 leads

  /** The bus stays frozen for the whole stretch of CPU time. */
  predicate Stuck(m: Machine) { true in m.freezes || (m.gxStall && FIFO_FULL <= m.gxSize) }

  /** ARM9's next idle jump thaws the bus. */
  predicate Thawing(m: Machine) { m.gxStall && m.gxSize < FIFO_FULL && true !in m.freezes }

  predicate Led(m: Machine, C: int) { m.arm9.clock <= m.arm7.clock + C }

  /** The head of the inner loop: ARM9 leads by at most `C`, or its lead will be taken
      back, or ARM7 will catch up. */
  predicate Leading(m: Machine, next: int, both: bool, C: int) {
    && Anchored(m) && m.arm9.clock < next + C
    && (both ==> || Led(m, C) || (m.arm9.halted && m.now == Floor(m))
                 || (Stuck(m) && !m.reschedule && m.arm9.clock <= next))
    && (!both ==> m.arm7.clock == next && m.now == m.arm9.clock)
    && (Thawing(m) ==> next <= m.arm9.clock + 1)
  }

  /** ARM9's turn ends within `C` of where it began, or idles at most to the horizon. */
  lemma Turn9Leads(o: Oracle, m: Machine, next: int, both: bool, C: int)
    requires Bounded(o, C) && 0 < C && Running(m, next, both) && (Thawing(m) ==> next <= m.arm9.clock + 1)
    ensures var r := Turn9(o, m, next, both);
            && m.arm9.clock <= r.arm9.clock < Max(m.arm9.clock + 1, next + C)
            && (Thawing(r) ==> next <= r.arm9.clock + 1)
            && (r.arm9.clock <= Max(m.arm9.clock, Lead(m, both) + C)
                || (r.arm9.clock <= next && !r.reschedule && (r.arm9.halted || (Stuck(m) && Stuck(r)))))
            && (Stuck(m) ==> Stuck(r) && r.reschedule == m.reschedule)
  {
    hide Apply, PushGx;
  }

  lemma Turn7Leads(o: Oracle, m: Machine, next: int, lead: int)
    requires lead < next && lead <= m.arm7.clock
    ensures var r := Turn7(o, m, next, lead);
            && m.arm7.clock <= r.arm7.clock && r.gxStall == m.gxStall && r.gxSize == m.gxSize
            && (Frozen(m) ==> r.reschedule == m.reschedule)
  {
    hide Apply;
  }

  lemma {:induction false} LeadingPass(o: Oracle, m: Machine, next: int, both: bool, C: int)
    requires Bounded(o, C) && 0 < C && Leading(m, next, both, C) && Running(m, next, both)
    ensures Leading(Pass(o, m, next, both).m, next, Pass(o, m, next, both).both, C)
  {
    hide Step9, Step7;
    var m9 := Turn9(o, m, next, both);
    Turn9Leads(o, m, next, both, C);
    if both { Turn7Leads(o, m9, next, Floor(m)); }
    hide Turn9, Turn7;
  }

  lemma {:induction false} LeadingInner(o: Oracle, m: Machine, next: int, both: bool, C: int)
    requires Bounded(o, C) && 0 < C && Leading(m, next, both, C)
    ensures Led(RollBack(Inner(o, m, next, both)), C)
    decreases both, next - Lead(m, both)
  {
    if Running(m, next, both) {
      LeadingPass(o, m, next, both, C);
      var h := Pass(o, m, next, both);
      hide Pass, Leading;
      LeadingInner(o, h.m, next, h.both, C);
    }
  }

  /** CPU time leaves ARM9 at most one instruction ahead of ARM7, unless the bus thaws
      with the horizon further than a tick away. */
  lemma {:induction false} StretchLeads(o: Oracle, m: Machine, C: int)
    requires WellFormed(m) && Bounded(o, C) && 0 < C && Anchored(m) && Led(m, C)
    requires Thawing(m) ==> Horizon(m) <= m.now + 1
    ensures Led(Stretch(o, m), C)
  {
    var start, next := m.(reschedule := false), Horizon(m);
    hide Horizon;
    if Running(start, next, true) {
      LeadingInner(o, start, next, true, C);
    }
  }

  // --------------------------------------------- runs that thaw at once

  /** Whenever the CPUs get time on a bus that the FIFO no longer stalls, the horizon
      is at most a tick away. */
  ghost predicate ThawsAtOnce(o: Oracle, n: nat) {
    forall j: nat :: j < n ==> PromptThaw(Polled(o, Run(o, Boot(), j)))
  }

  predicate PromptThaw(m: Machine)
    requires WellFormed(m)
  {
    Thawing(m) ==> Horizon(m) <= m.now + 1
  }

  lemma {:induction false} IterateLeads(o: Oracle, m: Machine, C: int)
    requires WellFormed(m) && Bounded(o, C) && 0 < C && Anchored(m) && Led(m, C) && PromptThaw(Polled(o, m))
    ensures Led(Iterate(o, m.(frameDone := false)), C)
  {
    var s := m.(frameDone := false);
    PollKeepsClocks(o, s, 0);
    hide Poll, Stretch, Thawing, Horizon;
    if !Poll(o, s, 0).frameDone { StretchLeads(o, Polled(o, m), C); }
  }

  lemma {:induction false} LeadStaysShort(o: Oracle, n: nat, C: int)
    requires Bounded(o, C) && 0 < C && ThawsAtOnce(o, n)
    ensures Led(Run(o, Boot(), n), C)
  {
    var boot := Boot();
    if n > 0 {
      LeadStaysShort(o, n - 1, C);
      var m := Run(o, boot, n - 1);
      assert PromptThaw(Polled(o, m));
      hide Iterate, Polled;
      ReachableSafe(o, m, Bounds(C, Max(C, IRQ_WAIT), false, false));
      IterateLeads(o, m, C);
    }
  }

  /** However DMA and the geometry FIFO freeze the bus, a run keeps every event within
      one instruction of its time if each stall ends within a tick of the FIFO having
      room: ARM9 then never leads ARM7 by more than one instruction. */
  lemma {:induction false} PromptThawsArePunctual(o: Oracle, n: nat, C: int)
    requires Bounded(o, C) && 0 < C && ThawsAtOnce(o, n)
    ensures var r := Run(o, Boot(), n); Punctual(r.fired, C) && OnTime(r, C) && Led(r, C)
  {
    LeadStaysShort(o, n, C);
    forall j: nat | j < n ensures !Overtaken(Polled(o, Run(o, Boot(), j)), C) {
      LeadStaysShort(o, j, C);
      LedIsNotOvertaken(o, Run(o, Boot(), j), C);
    }
    PunctualUntilOvertaken(o, n, C);
  }

  lemma LedIsNotOvertaken(o: Oracle, m: Machine, C: int)
    requires WellFormed(m) && Led(m, C)
    ensures !Overtaken(Polled(o, m), C)
  {
    var s, p := m.(frameDone := false), Polled(o, m);
    PollKeepsClocks(o, s, 0);
    hide Poll, Overtaken;
    if Overtaken(p, C) { OvertakenNeedsLead(p, C); }
  }

  // ------------------------------------------------- runs that never stall

  lemma {:induction false} PollDoesNotStall(o: Oracle, m: Machine, i: nat)
    requires WellFormed(m) && i <= ITEMS && NeverStalls(o) && !m.gxStall
    ensures !Poll(o, m, i).gxStall
    decreases ITEMS - i
  {
    if i < ITEMS {
      hide Apply, PushGx;
      PollDoesNotStall(o, if Due(m, i) then Fire(o, m, i) else m, i + 1);
    }
  }

  lemma {:induction false} InnerDoesNotStall(o: Oracle, m: Machine, next: int, both: bool)
    requires NeverStalls(o) && !m.gxStall
    ensures !Inner(o, m, next, both).gxStall
    decreases both, next - Lead(m, both)
  {
    if Running(m, next, both) {
      hide Apply, PushGx;
      var h := Pass(o, m, next, both);
      InnerDoesNotStall(o, h.m, next, h.both);
    }
  }

  lemma {:induction false} RunDoesNotStall(o: Oracle, n: nat)
    requires NeverStalls(o)
    ensures !Run(o, Boot(), n).gxStall && !Polled(o, Run(o, Boot(), n)).gxStall
  {
    var boot := Boot();
    if n > 0 {
      RunDoesNotStall(o, n - 1);
      var p := Polled(o, Run(o, boot, n - 1));
      InnerDoesNotStall(o, p.(reschedule := false), Horizon(p), true);
      hide Poll, Inner, Horizon;
    }
    hide Poll;
    PollDoesNotStall(o, Run(o, boot, n).(frameDone := false), 0);
  }

  lemma DmaThawsAtOnce(o: Oracle, n: nat)
    requires NeverStalls(o)
    ensures ThawsAtOnce(o, n)
  {
    forall j: nat | j < n ensures PromptThaw(Polled(o, Run(o, Boot(), j))) {
      RunDoesNotStall(o, j);
      hide Run, Poll, Horizon;
    }
  }

  /** However DMA freezes the bus, no event is more than one instruction late. */
  lemma {:induction false} FreezesArePunctual(o: Oracle, n: nat, C: int)
    requires Bounded(o, C) && 0 < C && NeverStalls(o)
    ensures var r := Run(o, Boot(), n); Punctual(r.fired, C) && OnTime(r, C) && Led(r, C)
  {
    DmaThawsAtOnce(o, n);
    PromptThawsArePunctual(o, n, C);
  }

  lemma {:induction false} RunsCompose(o: Oracle, m: Machine, j: nat, n: nat)
    requires WellFormed(m)
    ensures Run(o, Run(o, m, j), n) == Run(o, m, j + n)
  {
    hide Iterate;
    if n > 0 { RunsCompose(o, m, j, n - 1); }
  }

  /** So an event that nothing moves before its turn runs within one instruction of its
      time, whatever DMA does. */
  lemma {:induction false} UnmovedEventOutlastsDma(o: Oracle, j: nat, k: nat, C: int) returns (n: nat)
    requires Bounded(o, C) && 0 < C && NeverStalls(o) && Progressive(o)
    requires 1 <= k < ITEMS && Run(o, Boot(), j).items[k].enabled
    ensures var r := Run(o, Boot(), j); Reaches(o, r, n, r.items[k].when)
    ensures var r := Run(o, Boot(), j);
            var due, s := r.items[k].when, Run(o, r, n);
            Still(o, r, k, TurnOf(o, s, k)) ==> Fired(k, due, s.now) in Run(o, r, n + 1).fired && s.now <= due + C
  {
    hide Run, Still, Reaches, TurnOf;
    var boot := Boot();
    var r := Run(o, boot, j);
    FreezesArePunctual(o, j, C);
    RunFloor(o, j, C);
    n := UnmovedEventFires(o, r, k);
    RunsCompose(o, boot, j, n + 1);
    FreezesArePunctual(o, j + (n + 1), C);
  }

  lemma RunFloor(o: Oracle, j: nat, C: int)
    requires Bounded(o, C) && 0 < C
    ensures Floor(Run(o, Boot(), j)) <= Run(o, Boot(), j).now
  {
    hide Run;
    ReachableSafe(o, Run(o, Boot(), j), Bounds(C, Max(C, IRQ_WAIT), false, false));
  }

  // ------------------------------------------ stalls without buffer swaps

  ghost predicate NeverSwaps(o: Oracle) {
    forall t: nat, i: nat :: !o.hardware(t, i).swaps
  }

  predicate OnlyTriggers(ws: seq<Write>) {
    forall x :: 0 <= x < |ws| && DMA_0 <= ws[x].item < DMA_0 + 4 ==> ws[x].Trigger?
  }

  /** Handlers start ARM9's channels by their triggers only: no DMA copies into a DMA
      control register. */
  ghost predicate Triggers(o: Oracle) {
    (forall t: nat :: OnlyTriggers(o.display(t))) && (forall t: nat, i: nat :: OnlyTriggers(o.hardware(t, i).writes))
  }

  function Total(s: seq<nat>): nat
    requires |s| == 4
  {
    s[0] + s[1] + s[2] + s[3]
  }

  /** Each ARM9 channel feeds the FIFO no faster than its share of one entry a tick. */
  ghost predicate Shared(o: Oracle, s: seq<nat>)
    requires |s| == 4
  {
    && Total(s) > 0
    && forall t: nat, i: nat :: DMA_0 <= i < DMA_0 + 4 ==>
         Total(s) * o.hardware(t, i).feed.sent <= s[i - DMA_0] * o.hardware(t, i).takes
  }

  ghost predicate Fed9(o: Oracle, s: seq<nat>) { NeverSwaps(o) && Triggers(o) && |s| == 4 && Shared(o, s) }

  /** When channel `c` stops freezing the bus. */
  function End(m: Machine, c: nat): int
    requires WellFormed(m) && c < 4
  {
    if m.freezes[c] then Max(m.now, m.items[DMA_0 + c].when) else m.now
  }

  /** The entries still to be worked off, less one, fit into the time that the channels
      freeze the bus, each counted by its share. */
  predicate Paying(m: Machine, s: seq<nat>)
    requires WellFormed(m) && |s| == 4
  {
    var w := m.items[GX_FIFO].when - 1;
    Times(s[0], End(m, 0) - w) + Times(s[1], End(m, 1) - w) + Times(s[2], End(m, 2) - w)
      + Times(s[3], End(m, 3) - w) >= 0
  }

  function Times(s: nat, a: int): int { s * a }

  lemma Scaled(s: nat, a: int, b: int)
    requires a <= b
    ensures Times(s, a) <= Times(s, b)
  {
  }

  lemma TimesZero(s: nat)
    ensures Times(s, 0) == 0
  {
  }

  /** Later ends pay for more. */
  lemma PayLater(a: Machine, b: Machine, s: seq<nat>)
    requires WellFormed(a) && WellFormed(b) && |s| == 4 && Paying(a, s)
    requires a.items[GX_FIFO].when == b.items[GX_FIFO].when
    requires forall c :: 0 <= c < 4 ==> End(a, c) <= End(b, c)
    ensures Paying(b, s)
  {
    hide Times, End;
    var w := a.items[GX_FIFO].when - 1;
    Scaled(s[0], End(a, 0) - w, End(b, 0) - w);
    Scaled(s[1], End(a, 1) - w, End(b, 1) - w);
    Scaled(s[2], End(a, 2) - w, End(b, 2) - w);
    Scaled(s[3], End(a, 3) - w, End(b, 3) - w);
  }

  /** A batch leaves no more than a tick to pay. */
  lemma PayBatch(m: Machine, s: seq<nat>)
    requires WellFormed(m) && |s| == 4 && m.items[GX_FIFO].when == m.now + 1
    ensures Paying(m, s)
  {
    hide Times;
    forall c | 0 <= c < 4 ensures 0 <= Times(s[c], End(m, c) - m.now) {
      TimesZero(s[c]);
      Scaled(s[c], 0, End(m, c) - m.now);
    }
  }

  lemma CopyTerm(s: nat, end: int, later: int, w: int, sent: nat, takes: nat)
    requires end + takes <= later
    ensures Times(s, end - w) + Times(s, takes) - Times(s, sent) <= Times(s, later - (w + sent))
  {
    Scaled(s, end - w - sent + takes, later - (w + sent));
    assert s * (end - w) + s * takes - s * sent == s * (end - w - sent + takes);
  }

  /** What all channels owe for the entries that channel `c` feeds. */
  predicate Covers(s: seq<nat>, c: nat, sent: nat, takes: nat)
    requires |s| == 4 && c < 4
  {
    Times(s[0], sent) + Times(s[1], sent) + Times(s[2], sent) + Times(s[3], sent) <= Times(s[c], takes)
  }

  lemma SharesCover(s: seq<nat>, c: nat, sent: nat, takes: nat)
    requires |s| == 4 && c < 4 && Total(s) * sent <= s[c] * takes
    ensures Covers(s, c, sent, takes)
  {
    assert Total(s) * sent == s[0] * sent + s[1] * sent + s[2] * sent + s[3] * sent;
  }

  /** A copy pays for what it feeds. */
  lemma PayCopy(a: Machine, b: Machine, s: seq<nat>, c: nat, sent: nat, takes: nat)
    requires WellFormed(a) && WellFormed(b) && |s| == 4 && c < 4 && Paying(a, s) && Covers(s, c, sent, takes)
    requires b.items[GX_FIFO].when == a.items[GX_FIFO].when + sent
    requires forall d :: 0 <= d < 4 ==> End(a, d) + (if d == c then takes else 0) <= End(b, d)
    ensures Paying(b, s)
  {
    hide Times, End;
    var w := a.items[GX_FIFO].when - 1;
    TimesZero(s[0]);
    TimesZero(s[1]);
    TimesZero(s[2]);
    TimesZero(s[3]);
    CopyTerm(s[0], End(a, 0), End(b, 0), w, sent, if c == 0 then takes else 0);
    CopyTerm(s[1], End(a, 1), End(b, 1), w, sent, if c == 1 then takes else 0);
    CopyTerm(s[2], End(a, 2), End(b, 2), w, sent, if c == 2 then takes else 0);
    CopyTerm(s[3], End(a, 3), End(b, 3), w, sent, if c == 3 then takes else 0);
  }

  /** Without a freezing channel, only a tick is left. */
  lemma PaidOff(m: Machine, s: seq<nat>)
    requires WellFormed(m) && |s| == 4 && Total(s) > 0 && Paying(m, s) && true !in m.freezes
    ensures m.items[GX_FIFO].when <= m.now + 1
  {
    var d := m.now - (m.items[GX_FIFO].when - 1);
    assert forall c :: 0 <= c < 4 ==> !m.freezes[c];
    if d < 0 {
      assert Paying(m, s) ==> Times(s[0], d) + Times(s[1], d) + Times(s[2], d) + Times(s[3], d) >= 0;
      hide Paying;
      Debt(s, d);
    }
  }

  lemma Debt(s: seq<nat>, d: int)
    requires |s| == 4 && Total(s) > 0 && d < 0
    ensures Times(s[0], d) + Times(s[1], d) + Times(s[2], d) + Times(s[3], d) < 0
  {
    assert s[0] * d + s[1] * d + s[2] * d + s[3] * d == Total(s) * d;
    Scaled(Total(s), d, -1);
  }

  /** What every state keeps: an event for the entries, and for each freezing channel. */
  predicate Wired(m: Machine)
    requires WellFormed(m)
  {
    && !m.swapping && (m.gxSize > 0 ==> m.items[GX_FIFO].enabled)
    && forall c :: 0 <= c < 4 && m.freezes[c] ==> m.items[DMA_0 + c].enabled
  }

  predicate Roomy(m: Machine) { m.gxStall && m.gxSize < FIFO_FULL }

  /** A stalled bus whose FIFO has room again: the next idle turn of ARM9 comes before
      the FIFO runs empty.  `polled` tells whether the geometry event has had its turn
      in the current poll. */
  predicate Ready(m: Machine, s: seq<nat>, polled: bool)
    requires WellFormed(m) && |s| == 4
  {
    var level, later := m.arm9.clock == m.now, m.now < m.items[GX_FIFO].when;
    && Wired(m)
    && (Roomy(m) ==>
          && m.gxSize > 0 && Paying(m, s)
          && (m.gxSize > FIFO_BATCH || (level && later))
          && (level || later) && (polled ==> later))
  }

  // ------------------------------------------------- what a poll does to it

  /** Channels in the table stay there, with no earlier end. */
  predicate Kept(a: seq<Item>, b: seq<Item>, now: int) {
    && |a| == |b| == ITEMS && a[GX_FIFO] == b[GX_FIFO]
    && forall i :: DMA_0 <= i < DMA_0 + 4 && a[i].enabled ==> b[i].enabled && Max(now, a[i].when) <= Max(now, b[i].when)
  }

  lemma {:induction false} TriggersKeep(items: seq<Item>, now: int, ws: seq<Write>)
    requires |items| == ITEMS && OnlyTriggers(ws)
    ensures Kept(items, Apply(items, now, ws), now)
    decreases |ws|
  {
    if ws != [] {
      var w := ws[0];
      assert DMA_0 <= w.item < DMA_0 + 4 ==> w.Trigger?;
      assert Kept(items, ApplyOne(items, now, w), now);
      assert OnlyTriggers(ws[1..]);
      TriggersKeep(ApplyOne(items, now, w), now, ws[1..]);
    }
  }

  lemma SameReady(a: Machine, b: Machine, s: seq<nat>, polled: bool)
    requires WellFormed(a) && WellFormed(b) && |s| == 4 && Ready(a, s, polled) && Kept(a.items, b.items, a.now)
    requires a.now == b.now && a.arm9.clock == b.arm9.clock && a.gxStall == b.gxStall && a.gxSize == b.gxSize
    requires a.swapping == b.swapping && a.freezes == b.freezes
    ensures Ready(b, s, polled)
  {
    if Roomy(a) { PayLater(a, b, s); }
  }

  lemma DisplayReady(o: Oracle, m: Machine, s: seq<nat>)
    requires WellFormed(m) && Fed9(o, s) && Ready(m, s, false)
    ensures Ready(FireDisplay(o, m), s, false)
  {
    var later := m.items[DISPLAY := FireDisplay(o, m).items[DISPLAY]];
    TriggersKeep(later, m.now, o.display(m.tick));
    hide Apply, Paying, OnlyTriggers;
    SameReady(m, FireDisplay(o, m), s, false);
  }

  /** A batch leaves a roomy FIFO filled unless it has emptied it level. */
  lemma GxReady(o: Oracle, m: Machine, s: seq<nat>, h: Reaction)
    requires WellFormed(m) && Fed9(o, s) && Ready(m, s, false) && Due(m, GX_FIFO) && !h.swaps && OnlyTriggers(h.writes)
    ensures Ready(FireGx(m, h), s, true)
  {
    var n := Min(m.gxSize, FIFO_BATCH);
    var self := if n > 0 then Item(true, m.now + 1) else m.items[GX_FIFO].(enabled := false);
    var r := FireGx(m, h);
    TriggersKeep(m.items[GX_FIFO := self], m.now, h.writes);
    if Roomy(r) { PayBatch(r, s); }
    hide Apply, Paying, OnlyTriggers;
  }

  lemma CopyReady(m: Machine, s: seq<nat>, h: Reaction, i: nat)
    requires WellFormed(m) && |s| == 4 && Ready(m, s, true) && DMA_0 <= i < DMA_0 + 4 && Due(m, i)
    requires OnlyTriggers(h.writes)
    requires Covers(s, i - DMA_0, h.feed.sent, h.takes)
    ensures Ready(FireDma(m, h, i), s, true)
  {
    var r := FireDma(m, h, i);
    var off := m.items[i := m.items[i].(enabled := false)];
    var fed := PushGx(off, m.now, h.feed.sent);
    TriggersKeep(fed, m.now, h.writes);
    hide Apply, OnlyTriggers, Covers;
    if Roomy(r) {
      assert Roomy(m);
      if h.copies { PayCopy(m, r, s, i - DMA_0, h.feed.sent, h.takes); } else { PayLater(m, r, s); }
    }
    hide Paying;
  }

  lemma OtherReady(o: Oracle, m: Machine, i: nat, s: seq<nat>)
    requires WellFormed(m) && Fed9(o, s) && 1 <= i < ITEMS && Ready(m, s, i > GX_FIFO)
    requires i != GX_FIFO && !(DMA_0 <= i < DMA_0 + 4)
    ensures Ready(FireItem(o, m, i), s, i > GX_FIFO)
  {
    TriggersKeep(m.items[i := m.items[i].(enabled := false)], m.now, o.hardware(m.tick, i).writes);
    hide Apply, Paying, OnlyTriggers;
    SameReady(m, FireItem(o, m, i), s, i > GX_FIFO);
  }

  lemma Relabelled(m: Machine, tick: nat, fired: seq<Fired>, s: seq<nat>, polled: bool)
    requires WellFormed(m) && |s| == 4 && Ready(m, s, polled)
    ensures Ready(m.(tick := tick, fired := fired), s, polled)
  {
    SameReady(m, m.(tick := tick, fired := fired), s, polled);
    hide Paying;
  }

  lemma FireReady(o: Oracle, m: Machine, i: nat, s: seq<nat>)
    requires WellFormed(m) && Fed9(o, s) && i < ITEMS && Due(m, i) && Ready(m, s, i > GX_FIFO)
    ensures Ready(Fire(o, m, i), s, i >= GX_FIFO)
  {
    hide Ready, FireGx, FireDma, FireDisplay;
    var h, r := o.hardware(m.tick, i), Fire(o, m, i);
    if i == DISPLAY {
      DisplayReady(o, m, s);
    } else if i == GX_FIFO {
      GxReady(o, m, s, h);
      Relabelled(FireGx(m, h), r.tick, r.fired, s, true);
    } else if DMA_0 <= i < DMA_0 + 4 {
      SharesCover(s, i - DMA_0, h.feed.sent, h.takes);
      CopyReady(m, s, h, i);
      Relabelled(FireDma(m, h, i), r.tick, r.fired, s, true);
    } else {
      OtherReady(o, m, i, s);
      hide FireItem;
    }
  }

  lemma {:induction false} PollReady(o: Oracle, m: Machine, i: nat, s: seq<nat>)
    requires WellFormed(m) && Fed9(o, s) && i <= ITEMS && Ready(m, s, i > GX_FIFO)
    ensures Ready(Poll(o, m, i), s, true)
    decreases ITEMS - i
  {
    if i < ITEMS {
      if Due(m, i) { FireReady(o, m, i, s); }
      hide Fire, Paying;
      PollReady(o, if Due(m, i) then Fire(o, m, i) else m, i + 1, s);
    }
  }

  // ---------------------------------------------- what CPU time does to it

  lemma WiredTurn9(o: Oracle, m: Machine, next: int, both: bool)
    requires WellFormed(m) && Wired(m) && Lead(m, both) < next
    ensures var r := Turn9(o, m, next, both); WellFormed(r) && Wired(r) && (Roomy(r) ==> Roomy(m) && r.items == m.items)
  {
    hide Apply;
  }

  lemma WiredTurn7(o: Oracle, m: Machine, next: int, lead: int)
    requires WellFormed(m) && Wired(m) && lead < next && lead <= m.arm7.clock
    ensures var r := Turn7(o, m, next, lead); WellFormed(r) && Wired(r) && (Roomy(r) ==> Roomy(m) && r.items == m.items)
  {
    hide Apply;
  }

  lemma WiredPass(o: Oracle, m: Machine, next: int, both: bool)
    requires WellFormed(m) && Wired(m) && Running(m, next, both)
    ensures var r := Pass(o, m, next, both).m; WellFormed(r) && Wired(r) && (Roomy(r) ==> Roomy(m))
  {
    WiredTurn9(o, m, next, both);
    if both { WiredTurn7(o, Turn9(o, m, next, both), next, Lead(m, true)); }
    hide Turn9, Turn7;
  }

  /** Where there is no room on a stalled bus, CPU time makes none. */
  lemma {:induction false} NoRoomInside(o: Oracle, m: Machine, next: int, both: bool)
    requires WellFormed(m) && Wired(m) && !Roomy(m)
    ensures var r := Inner(o, m, next, both); WellFormed(r) && Wired(r) && !Roomy(r)
    decreases both, next - Lead(m, both)
  {
    if Running(m, next, both) {
      WiredPass(o, m, next, both);
      var h := Pass(o, m, next, both);
      hide Pass;
      NoRoomInside(o, h.m, next, h.both);
    }
  }

  /** While a roomy FIFO stalls the bus, nothing happens before ARM9's idle turn. */
  predicate Waiting(was: Machine, m: Machine) {
    && m.items == was.items && m.gxSize == was.gxSize && m.freezes == was.freezes && m.swapping == was.swapping
    && m.gxStall && !m.reschedule && m.arm9 == was.arm9
  }

  lemma WaitingPass(o: Oracle, m: Machine, next: int, both: bool)
    requires Roomy(m) && !m.reschedule && Running(m, next, both)
    ensures var h := Pass(o, m, next, both);
            Roomy(h.m) ==> Waiting(m, h.m) && both && (if h.both then Floor(h.m) < next else h.m.now == h.m.arm9.clock)
  {
    hide Apply, PushGx;
  }

  lemma {:induction false} InnerWaits(o: Oracle, m: Machine, next: int, both: bool)
    requires WellFormed(m) && Wired(m) && Roomy(m) && !m.reschedule
    ensures var r := Inner(o, m, next, both);
            && WellFormed(r) && Wired(r)
            && (Roomy(r) ==> Waiting(m, r) && (if Running(m, next, both) then r.now == r.arm9.clock else r == m))
    decreases both, next - Lead(m, both)
  {
    if Running(m, next, both) {
      WiredPass(o, m, next, both);
      WaitingPass(o, m, next, both);
      var h := Pass(o, m, next, both);
      hide Pass, Wired;
      if Roomy(h.m) { InnerWaits(o, h.m, next, h.both); } else { NoRoomInside(o, h.m, next, h.both); }
    }
  }

  lemma RollBackReady(was: Machine, m: Machine, s: seq<nat>)
    requires WellFormed(was) && WellFormed(m) && |s| == 4 && Ready(was, s, true) && Roomy(was) && Wired(m)
    requires Waiting(was, m) && was.now <= m.now && (m.now == was.now || m.now == m.arm9.clock)
    requires was.now <= was.arm9.clock
    ensures Ready(RollBack(m), s, false)
  {
    PayLater(was, RollBack(m), s);
    hide Paying;
  }

  lemma StretchReady(o: Oracle, m: Machine, s: seq<nat>)
    requires WellFormed(m) && |s| == 4 && Ready(m, s, true) && m.now <= m.arm9.clock
    ensures WellFormed(Stretch(o, m)) && Ready(Stretch(o, m), s, false)
  {
    var start, next := m.(reschedule := false), Horizon(m);
    hide Paying, Inner, Horizon;
    var r := Inner(o, start, next, true);
    if Roomy(m) {
      InnerWaits(o, start, next, true);
      assert Ready(start, s, true) by { SameReady(m, start, s, true); }
      if Roomy(r) { RollBackReady(start, r, s); }
    } else {
      NoRoomInside(o, start, next, true);
    }
  }

  // ------------------------------------------------------------ whole runs

  lemma IterateReady(o: Oracle, m: Machine, s: seq<nat>)
    requires WellFormed(m) && Fed9(o, s) && Ready(m, s, false) && m.now <= m.arm9.clock
    ensures Ready(Iterate(o, m.(frameDone := false)), s, false) && Ready(Polled(o, m), s, true)
  {
    var t := m.(frameDone := false);
    SameReady(m, t, s, false);
    PollReady(o, t, 0, s);
    PollKeepsClocks(o, t, 0);
    SameReady(Poll(o, t, 0), Polled(o, m), s, true);
    hide Poll, Stretch, Paying, Fed9;
    if !Poll(o, t, 0).frameDone { StretchReady(o, Polled(o, m), s); }
  }

  lemma {:induction false} RunReady(o: Oracle, n: nat, s: seq<nat>, C: int)
    requires Fed9(o, s) && Bounded(o, C) && 0 < C
    ensures Ready(Run(o, Boot(), n), s, false)
  {
    hide Ready, Shared, Iterate, Safe, Boot;
    var boot := Boot();
    if n == 0 {
      BootReady(s);
    } else {
      var m := Run(o, boot, n - 1);
      RunReady(o, n - 1, s, C);
      assert m.now <= m.arm9.clock by { RunsAnchored(o, m, C); }
      IterateReady(o, m, s);
    }
  }

  lemma RunsAnchored(o: Oracle, m: Machine, C: int)
    requires Bounded(o, C) && 0 < C && Reachable(o, m)
    ensures m.now <= m.arm9.clock
  {
    hide Reachable, Bounded;
    ReachableSafe(o, m, Bounds(C, Max(C, IRQ_WAIT), false, false)) by { hide Safe; }
  }

  lemma BootReady(s: seq<nat>)
    requires |s| == 4
    ensures Ready(Boot(), s, false)
  {
  }

  /** Without buffer swaps a stalled FIFO is served until ARM9 thaws the bus, and what
      DMA feeds it meanwhile is paid for by the time in which it freezes the bus. */
  lemma {:induction false} ReadyThaws(m: Machine, s: seq<nat>)
    requires WellFormed(m) && |s| == 4 && Total(s) > 0 && Ready(m, s, true)
    ensures PromptThaw(m)
  {
    if Thawing(m) {
      PaidOff(m, s);
      FindNextIsLeast(m.items, 1, m.items[DISPLAY].when);
    }
  }

  /** So with stalls too no event is more than one instruction late, if the geometry
      FIFO executes no buffer swap and DMA feeds it no faster than one entry a tick. */
  lemma {:induction false} StallsArePunctual(o: Oracle, n: nat, C: int, s: seq<nat>)
    requires Bounded(o, C) && 0 < C && Fed9(o, s)
    ensures var r := Run(o, Boot(), n); Punctual(r.fired, C) && OnTime(r, C) && Led(r, C)
  {
    forall j: nat | j < n ensures PromptThaw(Polled(o, Run(o, Boot(), j))) {
      RunReady(o, j, s, C);
      ReachableSafe(o, Run(o, Boot(), j), Bounds(C, Max(C, IRQ_WAIT), false, false));
      hide Run, Polled, Ready;
      IterateReady(o, Run(o, Boot(), j), s);
      ReadyThaws(Polled(o, Run(o, Boot(), j)), s);
    }
    PromptThawsArePunctual(o, n, C);
  }
}
