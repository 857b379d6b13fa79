/**
 The DMA channels as events of the scheduler: a bus frozen by a channel thaws in
 bounded time, because the freeze is an event that the horizon never passes.
 */
module DmaScheduling {
  import Dma
  import opened SchedulerModel
  import opened SchedulerProofs
  import opened SchedulerRuns
  import opened SchedulerFreeze

  const CHANNELS := 8             // ARM9's four, then ARM7's

  /** The event table and the freeze bits show the channels: isEnabled and next of
      TSequenceItem_DMA, and the bits 1 to 4 of nds.freezeBus. */
  predicate Coupled(all: seq<Dma.State>, m: Machine) {
    && WellFormed(m) && Tabled(all, m.items)
    && forall c :: 0 <= c < 4 ==> m.freezes[c] == all[c].freezes
  }

  predicate Tabled(all: seq<Dma.State>, items: seq<Item>) {
    && |items| == ITEMS && |all| == CHANNELS
    && (forall c :: 0 <= c < CHANNELS ==> all[c].c.arm9 == (c < 4))
    && (forall c :: 0 <= c < CHANNELS ==> Shown(all[c].c, items[DMA_0 + c]))
  }

  predicate Shown(c: Dma.Channel, item: Item) {
    item.enabled == c.dmaCheck && (c.dmaCheck ==> item.when == c.nextEvent)
  }

  predicate AllAlive(all: seq<Dma.State>) { forall c :: 0 <= c < |all| ==> Dma.Alive(all[c]) }

  /** A bus frozen by DMA bounds the wait: the CPUs get no time past the event of the
      channel that froze it. */
  lemma FreezeBoundsHorizon(all: seq<Dma.State>, m: Machine) returns (c: nat)
    requires Coupled(all, m) && AllAlive(all) && true in m.freezes
    ensures c < 4 && all[c].freezes && m.items[DMA_0 + c] == Item(true, all[c].c.nextEvent)
    ensures Horizon(m) <= all[c].c.nextEvent
  {
    c :| 0 <= c < |m.freezes| && m.freezes[c];
    assert Dma.Alive(all[c]);
    assert Shown(all[c].c, m.items[DMA_0 + c]);
    FindNextIsLeast(m.items, 1, m.items[DISPLAY].when);
  }

  // ------------------------------------------------- what a call writes

  /** The writes of a call to the events of the channels. */
  function DmaPart(ws: seq<Write>): seq<Write> {
    if ws == [] then [] else (if ws[0].item < DMA_0 then [] else [ws[0]]) + DmaPart(ws[1..])
  }

  /** What an operation on channel `k` writes: it programs the channel's event for the
      current time, or nothing. */
  function WriteOf(s: Dma.State, k: nat, op: Dma.Op): seq<Write> {
    var schedules :=
      match op
      case Control(val, at) =>
        !(s.c.startmode != Dma.IMMEDIATE && s.c.startmode != Dma.GX_FIFO && s.c.enable)
      case Trigger(mode, at) => s.c.startmode == mode && s.c.enable && !(s.c.running && !s.c.paused)
      case _ => false;
    if schedules then [Program(DMA_0 + k, 0)] else []
  }

  function WritesOf(all: seq<Dma.State>, ops: seq<(nat, Dma.Op)>): seq<Write>
    decreases |ops|
  {
    if ops == [] then []
    else
      var (k, op) := ops[0];
      if k < |all| then WriteOf(all[k], k, op) + WritesOf(all[k := Dma.Do(all[k], op)], ops[1..])
      else WritesOf(all, ops[1..])
  }

  /** Register writes and triggers at the current time. */
  predicate Outer(op: Dma.Op, now: int) {
    match op
    case Control(_, at) => at == now
    case Trigger(_, at) => at == now
    case Event(_) => false
    case _ => true
  }

  predicate AllOuter(ops: seq<(nat, Dma.Op)>, now: int) { forall x :: 0 <= x < |ops| ==> Outer(ops[x].1, now) }

  lemma OuterKeeps(s: Dma.State, k: nat, op: Dma.Op, item: Item, now: int)
    requires Shown(s.c, item) && Outer(op, now)
    ensures var r := Dma.Do(s, op);
            && Shown(r.c, if WriteOf(s, k, op) == [] then item else Item(true, now))
            && r.freezes == s.freezes && r.c.arm9 == s.c.arm9
  {
  }

  lemma {:induction false} DmaPartSuffices(a: seq<Item>, b: seq<Item>, now: int, ws: seq<Write>)
    requires |a| == |b| == ITEMS && forall i :: DMA_0 <= i < ITEMS ==> a[i] == b[i]
    ensures forall i :: DMA_0 <= i < ITEMS ==> Apply(a, now, ws)[i] == Apply(b, now, DmaPart(ws))[i]
    decreases |ws|
  {
    if ws != [] {
      var w := ws[0];
      if w.item < DMA_0 {
        assert DmaPart(ws) == DmaPart(ws[1..]);
        DmaPartSuffices(ApplyOne(a, now, w), b, now, ws[1..]);
      } else {
        assert ([w] + DmaPart(ws[1..]))[1..] == DmaPart(ws[1..]);
        DmaPartSuffices(ApplyOne(a, now, w), ApplyOne(b, now, w), now, ws[1..]);
      }
    }
  }

  /** The events of the channels follow the operations on them, as Dma.System runs them. */
  lemma {:induction false} OpsKeepTable(all: seq<Dma.State>, items: seq<Item>, now: int, ops: seq<(nat, Dma.Op)>)
    requires Tabled(all, items) && AllOuter(ops, now)
    ensures var r := Dma.System(all, ops);
            && Tabled(r, Apply(items, now, WritesOf(all, ops)))
            && forall c :: 0 <= c < CHANNELS ==> r[c].freezes == all[c].freezes
    decreases |ops|
  {
    if ops != [] {
      var (k, op) := ops[0];
      assert Outer(ops[0].1, now) && AllOuter(ops[1..], now);
      if k < CHANNELS {
        var next, w := all[k := Dma.Do(all[k], op)], WriteOf(all[k], k, op);
        OuterKeeps(all[k], k, op, items[DMA_0 + k], now);
        hide Dma.Do, Shown;
        if w == [] {
          assert WritesOf(all, ops) == WritesOf(next, ops[1..]);
          OpsKeepTable(next, items, now, ops[1..]);
        } else {
          var table := ApplyOne(items, now, w[0]);
          assert (w + WritesOf(next, ops[1..]))[1..] == WritesOf(next, ops[1..]);
          assert table == items[DMA_0 + k := Item(true, now)];
          OpsKeepTable(next, table, now, ops[1..]);
        }
      } else {
        OpsKeepTable(all, items, now, ops[1..]);
      }
    }
  }

  /** An instruction, the display or the geometry event keeps table and channels
      together, whatever else it writes: its writes to the channels' events are those
      of the operations it does on them. */
  lemma {:induction false} CallKeepsCoupled(m: Machine, all: seq<Dma.State>, ws: seq<Write>, sent: nat,
        ops: seq<(nat, Dma.Op)>)
    requires Coupled(all, m) && AllOuter(ops, m.now) && DmaPart(ws) == WritesOf(all, ops)
    ensures Coupled(Dma.System(all, ops), m.(items := Apply(PushGx(m.items, m.now, sent), m.now, ws)))
  {
    OpsKeepTable(all, m.items, m.now, ops);
    DmaPartSuffices(PushGx(m.items, m.now, sent), m.items, m.now, ws);
    hide Dma.System, Apply, Shown, WritesOf, PushGx;
  }

  // ------------------------------------------------ the channel's own event

  /** What the handler of channel `c` does, whose copy may feed the geometry FIFO, write
      other events and operate on the other channels. */
  predicate Handles(h: Reaction, all: seq<Dma.State>, c: nat, e: Dma.Env, ops: seq<(nat, Dma.Op)>)
    requires c < |all|
  {
    && h.copies == (|Dma.Exec(all[c], e).bursts| > |all[c].bursts|) && h.takes == e.elapsed
    && (h.copies ==> DmaPart(h.writes) == WritesOf(all, ops)) && (!h.copies ==> ops == [])
    && AllOuter(ops, e.now) && forall x :: 0 <= x < |ops| ==> ops[x].0 != c
  }

  /** Operations on other channels do not depend on channel `c`, and leave it alone. */
  lemma {:induction false} OthersSpare(all: seq<Dma.State>, ops: seq<(nat, Dma.Op)>, c: nat, s: Dma.State)
    requires c < |all| && forall x :: 0 <= x < |ops| ==> ops[x].0 != c
    ensures Dma.System(all[c := s], ops) == Dma.System(all, ops)[c := s]
    ensures WritesOf(all[c := s], ops) == WritesOf(all, ops)
    decreases |ops|
  {
    if ops != [] {
      var (k, op) := ops[0];
      hide Dma.Do, WriteOf;
      assert ops[0].0 != c && forall x :: 0 <= x < |ops| - 1 ==> ops[1..][x] == ops[x + 1];
      if k < |all| {
        var next := all[k := Dma.Do(all[k], op)];
        assert all[c := s][k := Dma.Do(all[k], op)] == next[c := s];
        OthersSpare(next, ops[1..], c, s);
      } else {
        OthersSpare(all, ops[1..], c, s);
      }
    }
  }

  /** The channel's event clears its bit unless it starts another burst, and the table
      and the bits still show the channels after it. */
  lemma EventKeepsCoupled(o: Oracle, m: Machine, all: seq<Dma.State>, c: nat, e: Dma.Env, ops: seq<(nat, Dma.Op)>)
    requires Coupled(all, m) && AllAlive(all) && c < CHANNELS && all[c].c.dmaCheck && e.now == m.now
    requires Handles(o.hardware(m.tick, DMA_0 + c), all, c, e, ops)
    ensures var after, r := Dma.System(all, ops)[c := Dma.Exec(all[c], e)], Fire(o, m, DMA_0 + c);
            && Coupled(after, r) && AllAlive(after)
            && (c < 4 ==> (r.freezes[c] <==> |after[c].bursts| > |all[c].bursts|))
  {
    hide Dma.Exec, Dma.Alive, Dma.System, WritesOf, DmaPart, AllOuter;
    var h, x := o.hardware(m.tick, DMA_0 + c), Dma.Exec(all[c], e);
    assert Dma.Alive(all[c]);
    ChannelAfter(all[c], e);
    Dma.NoBusDeadlock(all, ops);
    TableAfter(m, all, h, c, e, ops);
  }

  /** The other channels, while channel `c` is off the table. */
  lemma OthersTabled(m: Machine, all: seq<Dma.State>, c: nat, ops: seq<(nat, Dma.Op)>)
    requires Coupled(all, m) && c < CHANNELS && AllOuter(ops, m.now) && forall x :: 0 <= x < |ops| ==> ops[x].0 != c
    ensures var off := m.items[DMA_0 + c := m.items[DMA_0 + c].(enabled := false)];
            var sys, items := Dma.System(all, ops), Apply(off, m.now, WritesOf(all, ops));
            && |sys| == CHANNELS && |items| == ITEMS
            && forall d :: 0 <= d < CHANNELS ==>
                 sys[d].freezes == all[d].freezes
                   && (d != c ==> sys[d].c.arm9 == (d < 4) && Shown(sys[d].c, items[DMA_0 + d]))
  {
    var unchecked := all[c].(c := all[c].c.(dmaCheck := false));
    var off := m.items[DMA_0 + c := m.items[DMA_0 + c].(enabled := false)];
    OthersSpare(all, ops, c, unchecked);
    OthersSpare(all, ops, c, all[c]);
    assert all[c := all[c]] == all;
    hide WritesOf, Dma.System, AllOuter, Apply;
    assert Tabled(all[c := unchecked], off);
    OpsKeepTable(all[c := unchecked], off, m.now, ops);
    var sys, others := Dma.System(all, ops), Dma.System(all[c := unchecked], ops);
    assert sys == sys[c := all[c]] && others == sys[c := unchecked];
    assert sys[c] == all[c];
    var items := Apply(off, m.now, WritesOf(all, ops));
    assert Tabled(others, items) && |sys| == CHANNELS;
    forall d | 0 <= d < CHANNELS && d != c
      ensures sys[d].freezes == all[d].freezes && sys[d].c.arm9 == (d < 4) && Shown(sys[d].c, items[DMA_0 + d])
    {
      assert sys[d] == others[d];
    }
  }

  lemma TableAfter(m: Machine, all: seq<Dma.State>, h: Reaction, c: nat, e: Dma.Env, ops: seq<(nat, Dma.Op)>)
    requires Coupled(all, m) && c < CHANNELS && Dma.Alive(all[c]) && all[c].c.dmaCheck && e.now == m.now
    requires Handles(h, all, c, e, ops)
    ensures Coupled(Dma.System(all, ops)[c := Dma.Exec(all[c], e)], FireDma(m, h, DMA_0 + c))
  {
    hide Dma.Exec, Dma.Alive, WritesOf, DmaPart, Dma.System, AllOuter, Apply;
    var off := m.items[DMA_0 + c := m.items[DMA_0 + c].(enabled := false)];
    ChannelAfter(all[c], e);
    OthersTabled(m, all, c, ops);
    if h.copies {
      DmaPartSuffices(PushGx(off, m.now, if c < 4 then h.feed.sent else 0), off, m.now, h.writes);
    } else {
      NoOps(all, off, m.now);
    }
  }

  lemma NoOps(all: seq<Dma.State>, items: seq<Item>, now: int)
    ensures Apply(items, now, WritesOf(all, [])) == items && Dma.System(all, []) == all
  {
  }

  /** A channel stays with its CPU and alive; its event is scheduled exactly if it
      starts another burst, for the end of that, and then one of ARM9 freezes the bus. */
  lemma ChannelAfter(s: Dma.State, e: Dma.Env)
    requires Dma.Alive(s) && s.c.dmaCheck
    ensures var r := Dma.Exec(s, e);
            && Dma.Alive(r) && r.c.arm9 == s.c.arm9
            && (r.c.dmaCheck <==> |r.bursts| > |s.bursts|) && (r.freezes <==> r.c.arm9 && r.c.dmaCheck)
            && (r.c.dmaCheck ==> r.c.nextEvent == e.now + e.elapsed)
  {
    Dma.DoStaysAlive(s, Dma.Event(e));
    ScheduledIffCopied(s, e);
    hide Dma.Exec;
  }

  /** After a copy, or a start that came to none: event and freeze bit follow it. */
  predicate Follows(t: Dma.State, r: Dma.State, e: Dma.Env, copies: bool) {
    && r.c.arm9 == t.c.arm9 && r.c.dmaCheck == copies && (|r.bursts| > |t.bursts| <==> copies)
    && r.freezes == (t.freezes || (copies && t.c.arm9)) && (copies ==> r.c.nextEvent == e.now + e.elapsed)
  }

  lemma ScheduledIffCopied(s: Dma.State, e: Dma.Env)
    requires s.freezes ==> s.c.arm9
    ensures var r := Dma.Exec(s, e);
            && r.c.arm9 == s.c.arm9 && (r.c.dmaCheck <==> |r.bursts| > |s.bursts|)
            && (r.freezes <==> r.c.arm9 && r.c.dmaCheck) && (r.c.dmaCheck ==> r.c.nextEvent == e.now + e.elapsed)
  {
    hide Dma.Start, Dma.DoCopy, Dma.Todo, Dma.StartMode;
    var t := Dma.State(s.c.(dmaCheck := false), s.freezes && !s.c.arm9, s.copied, s.bursts, s.irqs);
    StartCopies(t, e);
    StartCopies(t.(c := t.c.(triggered := false, paused := true)), e);
  }

  lemma StartCopies(t: Dma.State, e: Dma.Env)
    requires !t.c.dmaCheck
    ensures Follows(t, Dma.Start(t, e), e, Dma.Start(t, e).c.dmaCheck)
  {
    hide Dma.DoCopy, Dma.StartMode;
    var mode := Dma.StartMode(t.c);
    CopyBursts(t.(c := t.c.(startmode := mode, triggered := true, running := true, paused := false)), e);
  }

  lemma CopyBursts(t: Dma.State, e: Dma.Env)
    ensures Follows(t, Dma.DoCopy(t, e), e, true)
  {
    hide Dma.Words, Dma.Move, Dma.Todo, Dma.Rest, Dma.SrcStride, Dma.DstStride;
  }

  // ---------------------------------------------------------- whole runs

  /** In every run, a channel that froze the bus gets its event, on time, unless another
      handler moves it before: no instruction runs until then.  It is at most one
      instruction late if only DMA freezes the bus, and one idle jump otherwise. */
  lemma FreezeEnds(o: Oracle, j: nat, all: seq<Dma.State>, c: nat, C: int) returns (n: nat)
    requires Bounded(o, C) && 0 < C && Progressive(o)
    requires Coupled(all, Run(o, Boot(), j)) && AllAlive(all) && c < 4 && all[c].freezes
    ensures Reaches(o, Run(o, Boot(), j), n, all[c].c.nextEvent)
    ensures var r := Run(o, Boot(), j);
            var due, s, k := all[c].c.nextEvent, Run(o, r, n), DMA_0 + c;
            Quiet(o, k, r.tick, TurnOf(o, s, k), false) ==>
              && Fired(k, due, s.now) in Run(o, r, n + 1).fired
              && s.now <= due + if NeverStalls(o) then C else Max(C, IRQ_WAIT)
  {
    var r := Run(o, Boot(), j);
    assert Dma.Alive(all[c]) && Shown(all[c].c, r.items[DMA_0 + c]);
    assert EndsFreeze(r, DMA_0 + c);
    hide Run, Quiet, Reaches, TurnOf;
    if NeverStalls(o) {
      n := UnmovedEventOutlastsDma(o, j, DMA_0 + c, C);
    } else {
      n := UnmovedEventIsPunctual(o, r, DMA_0 + c, Bounds(C, Max(C, IRQ_WAIT), false, false));
    }
  }
}
