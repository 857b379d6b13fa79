/**
 The scheduler as the source writes it: global state updated in loops, with the
 inner loop on 32-bit times relative to a base.  Each method is proved to
 compute the function of the same step in SchedulerModel.
 */
module SchedulerMachine {
  import opened SchedulerModel
  import opened SchedulerProofs
  import opened SchedulerRuns

  newtype s32 = x: int | -0x8000_0000 <= x < 0x8000_0000

  /** Bound on drift and instruction cost under which no 32-bit time overflows. */
  const REACH := 0x1000_0000

  class Nds {
    const o: Oracle
    var ndsTimer: int
    var arm9: Cpu
    var arm7: Cpu
    var gxStall: bool
    var freezes: seq<bool>
    var gxSize: nat
    var swapping: bool
    var reschedule: bool
    var items: seq<Item>
    var phase: int
    var line: int
    var frameDone: bool
    var tick: nat
    ghost var fired: seq<Fired>

    /** The state, with the CPU clocks given: the inner loop keeps them in locals. */
    ghost function View(clock9: int, clock7: int): Machine
      reads this
    {
      Machine(ndsTimer, arm9.(clock := clock9), arm7.(clock := clock7),
              gxStall, freezes, gxSize, swapping, reschedule, items, phase, line, frameDone, tick, fired)
    }

    ghost function State(): Machine
      reads this
    {
      View(arm9.clock, arm7.clock)
    }

    constructor (o: Oracle)
      ensures this.o == o && State() == Boot()
    {
      this.o := o;
      ndsTimer, arm9, arm7 := 0, Cpu(0, false, 0, 0, 0), Cpu(0, false, 0, 0, 0);
      gxStall, freezes, gxSize, swapping, reschedule := false, [false, false, false, false], 0, false, false;
      items := seq(ITEMS, i => if i == DISPLAY then Item(true, 0) else Item(false, 0));
      phase, line, frameDone, tick := 0, LAST_LINE, false, 0;
      fired := [];
    }

    /** The table updates of one instruction or handler, one after the other. */
    method Write(ws: seq<Write>)
      modifies `items
      ensures items == Apply(old(items), ndsTimer, ws)
    {
      var k := 0;
      while k < |ws|
        invariant 0 <= k <= |ws|
        invariant Apply(items, ndsTimer, ws[k..]) == Apply(old(items), ndsTimer, ws)
      {
        var w := ws[k];
        if 1 <= w.item < |items| && w.item != GX_FIFO {
          match w {
            case Program(i, delay) => items := items[i := Item(true, ndsTimer + delay)];
            case Trigger(i) =>
              if DMA_0 <= i && !(items[i].enabled && ndsTimer < items[i].when) {
                items := items[i := Item(true, ndsTimer)];
              }
            case Cancel(i) => items := items[i := items[i].(enabled := false)];
          }
        }
        k := k + 1;
      }
    }

    /** NDS_RescheduleGXFIFO, called `cost` times in a row. */
    method RescheduleGx(cost: nat)
      requires |items| == ITEMS
      modifies `items
      ensures items == PushGx(old(items), ndsTimer, cost)
    {
      if cost > 0 {
        if !items[GX_FIFO].enabled { items := items[GX_FIFO := Item(true, ndsTimer)]; }
        items := items[GX_FIFO := items[GX_FIFO].(when := items[GX_FIFO].when + cost)];
      }
    }

    /** The writes of one instruction or copy to the geometry FIFO and its ports. */
    method SendGx(f: Feed, ghost clock9: int, ghost clock7: int)
      requires |items| == ITEMS
      modifies `gxStall, `gxSize, `items
      ensures View(clock9, clock7) == Fed(old(View(clock9, clock7)), f)
    {
      if f.port && gxSize + (if f.before < f.sent then f.before else f.sent) > FIFO_FULL - 1 { gxStall := true; }
      gxSize := gxSize + f.sent;
      RescheduleGx(f.sent);
    }

    /** The rest of what armcpu_exec does, for whichever CPU the script entry belongs
        to. */
    method Execute(e: Exec, ghost clock9: int, ghost clock7: int)
      modifies `items, `reschedule, `tick
      ensures View(clock9, clock7) == Retire(old(View(clock9, clock7)), e)
    {
      hide Apply;
      reschedule := reschedule || e.reschedules || e.writes != [];
      Write(e.writes);
      tick := tick + 1;
    }

    /** Sequencer::execHardware */
    method ExecHardware()
      requires WellFormed(State())
      modifies this
      ensures State() == Poll(o, old(State()), 0)
    {
      var i := 0;
      while i < ITEMS
        invariant 0 <= i <= ITEMS && WellFormed(State())
        invariant Poll(o, State(), i) == Poll(o, old(State()), 0)
      {
        if items[i].enabled && items[i].when <= ndsTimer {
          if i == DISPLAY { ExecDisplay(); } else { ExecItem(i); }
        }
        i := i + 1;
      }
    }

    /** The phases of a line: it starts the line, or the vertical blank, or neither. */
    method NextPhase() returns (length: int, swap: bool)
      modifies `line, `frameDone, `phase, `arm9, `arm7, `swapping
      ensures line == if old(phase) != 0 then old(line) else if old(line) == LAST_LINE then 0 else old(line) + 1
      ensures frameDone == (old(frameDone) || (old(phase) == 0 && line == LAST_LINE))
      ensures phase == if old(phase) == 3 then 0 else old(phase) + 1
      ensures var flush := old(phase) == 1 && line == VBLANK_LINE;
              && arm9 == (if flush then old(arm9).Flushed() else old(arm9))
              && arm7 == (if flush then old(arm7).Flushed() else old(arm7))
      ensures length == match old(phase) case 0 => 12 case 1 => 84 case 2 => 3108 case _ => 1056
      ensures swap == (old(phase) == 0 && line == VBLANK_LINE && old(swapping)) && swapping == (old(swapping) && !swap)
    {
      length, swap := 1056, false;
      match phase {
        case 0 =>
          line := if line == LAST_LINE then 0 else line + 1;
          frameDone := frameDone || line == LAST_LINE;
          if line == VBLANK_LINE && swapping { swap, swapping := true, false; }
          length := 12;
        case 1 =>
          if line == VBLANK_LINE { arm9, arm7 := arm9.Flushed(), arm7.Flushed(); }
          length := 84;
        case 2 => length := 3108;
        case _ =>
      }
      phase := if phase == 3 then 0 else phase + 1;
    }

    /** The next phase as an event, and what the current one starts. */
    method StartPhase(length: int, swap: bool)
      requires |items| == ITEMS
      modifies `items
      ensures items == Apply(PushGx(old(items)[DISPLAY := Item(true, old(items)[DISPLAY].when + length)], ndsTimer,
                                    if swap then 1 else 0), ndsTimer, o.display(tick))
    {
      items := items[DISPLAY := Item(true, items[DISPLAY].when + length)];
      RescheduleGx(if swap then 1 else 0);
      Write(o.display(tick));
    }

    method ExecDisplay()
      requires WellFormed(State())
      modifies this
      ensures State() == FireDisplay(o, old(State()))
    {
      hide Apply, PushGx;
      ghost var due := items[DISPLAY].when;
      var length, swap := NextPhase();
      StartPhase(length, swap);
      tick := tick + 1;
      fired := fired + [Fired(DISPLAY, due, ndsTimer)];
    }

    method ExecItem(i: nat)
      requires WellFormed(State()) && 1 <= i < ITEMS
      modifies this
      ensures State() == FireItem(o, old(State()), i)
    {
      hide Apply, FireGx, FireDma;
      ghost var due := items[i].when;
      var h := o.hardware(tick, i);
      if i == GX_FIFO {
        Execute3D(h);
      } else if DMA_0 <= i {
        ExecDma(h, i);
      } else if TIMER_0 <= i {
        items := items[i := Item(true, ndsTimer + 1 + h.extra)];
      } else {
        items := items[i := items[i].(enabled := false)];
      }
      tick := tick + 1;
      fired := fired + [Fired(i, due, ndsTimer)];
    }

    /** The event of the geometry FIFO: gfx3d_execute3D. */
    method Execute3D(h: Reaction)
      requires WellFormed(State())
      modifies `items, `gxSize, `swapping
      ensures State() == FireGx(old(State()), h)
    {
      hide Apply;
      items := items[GX_FIFO := items[GX_FIFO].(enabled := false)];
      if swapping { return; }
      var k := 0;
      while k < FIFO_BATCH && gxSize > 0
        invariant k + gxSize == old(gxSize) && k <= Min(old(gxSize), FIFO_BATCH)
        invariant items == old(items)[GX_FIFO := if k > 0 then Item(true, ndsTimer + 1)
                                                 else old(items)[GX_FIFO].(enabled := false)]
      {
        gxSize := gxSize - 1;
        items := items[GX_FIFO := Item(true, ndsTimer + 1)];
        k := k + 1;
      }
      swapping := k > 0 && h.swaps;
      Write(h.writes);
    }

    /** The event of a DMA channel: DmaController::exec. */
    method ExecDma(h: Reaction, i: nat)
      requires WellFormed(State()) && DMA_0 <= i < ITEMS
      modifies `items, `freezes, `gxStall, `gxSize
      ensures State() == FireDma(old(State()), h, i)
    {
      hide Apply;
      var arm9 := i < DMA_0 + 4;
      items := items[i := items[i].(enabled := false)];
      if arm9 { freezes := freezes[i - DMA_0 := false]; }
      if h.copies {
        if arm9 { SendGx(h.feed, this.arm9.clock, arm7.clock); }
        Write(h.writes);
        items := items[i := Item(true, ndsTimer + h.takes)];
        if arm9 { freezes := freezes[i - DMA_0 := true]; }
      }
    }

    /** Sequencer::findNext, capped as in NDS_exec. */
    method NextWork() returns (next: int)
      requires WellFormed(State())
      ensures next == Horizon(State()) <= ndsTimer + MAX_WORK
    {
      next := items[DISPLAY].when;
      var i := 1;
      while i < ITEMS
        invariant 1 <= i <= ITEMS
        invariant FindNext(items, i, next) == FindNext(items, 1, items[DISPLAY].when)
      {
        if items[i].enabled && items[i].when < next { next := items[i].when; }
        i := i + 1;
      }
      if ndsTimer + MAX_WORK < next { next := ndsTimer + MAX_WORK; }
    }

    /** armInnerLoop: the times are relative to `base` and fit 32 bits. */
    method ArmInnerLoop(base: int, next: s32, start9: s32, start7: s32, doArm7: bool) returns (t9: s32, t7: s32)
      requires |items| == ITEMS && Bounded(o, REACH) && -REACH <= next as int <= MAX_WORK
      requires -REACH <= start9 as int <= 2 * REACH && -REACH <= start7 as int <= 2 * REACH
      modifies this
      ensures View(base + t9 as int, base + t7 as int)
           == Inner(o, old(View(base + start9 as int, base + start7 as int)), base + next as int, doArm7)
      decreases doArm7
    {
      hide Pass;
      t9, t7 := start9, start7;
      ghost var was := View(base + start9 as int, base + start7 as int);
      var timer := if doArm7 && t7 < t9 then t7 else t9;
      while timer < next && !reschedule
        invariant timer == if doArm7 && t7 < t9 then t7 else t9
        invariant |items| == ITEMS && -REACH <= t9 as int <= 2 * REACH && -REACH <= t7 as int <= 2 * REACH
        invariant Inner(o, View(base + t9 as int, base + t7 as int), base + next as int, doArm7)
               == Inner(o, was, base + next as int, doArm7)
        decreases next as int - timer as int
      {
        var handsOver;
        t9, t7, handsOver := RunPass(base, next, t9, t7, timer, doArm7);
        if handsOver {
          t9, t7 := ArmInnerLoop(base, next, t9, t7, false);
          return;
        }
        timer := if doArm7 && t7 < t9 then t7 else t9;
      }
    }

    /** The body of the inner loop. */
    method RunPass(base: int, next: s32, start9: s32, start7: s32, timer: s32, doArm7: bool)
      returns (t9: s32, t7: s32, handsOver: bool)
      requires |items| == ITEMS && Bounded(o, REACH) && timer < next && next as int <= MAX_WORK && !reschedule
      requires timer == if doArm7 && start7 < start9 then start7 else start9
      requires -REACH <= start9 as int <= 2 * REACH && -REACH <= start7 as int <= 2 * REACH
      modifies this
      ensures handsOver ==> doArm7
      ensures start9 <= t9 && start7 <= t7 && t9 as int <= 2 * REACH && t7 as int <= 2 * REACH
      ensures Pass(o, old(View(base + start9 as int, base + start7 as int)), base + next as int, doArm7)
           == Head(View(base + t9 as int, base + t7 as int), doArm7 && !handsOver)
    {
      hide Turn9, Turn7;
      ghost var head := View(base + start9 as int, base + start7 as int);
      t7, handsOver := start7, false;
      t9 := TakeTurn9(base, next, start9, t7, timer, doArm7);
      ghost var m9 := View(base + t9 as int, base + t7 as int);
      if doArm7 { t7, handsOver := TakeTurn7(base, next, t9, t7, timer, head); }
      ndsTimer := base + (if doArm7 && !handsOver && t7 < t9 then t7 else t9) as int;
    }

    method TakeTurn9(base: int, next: s32, start9: s32, ghost t7: s32, timer: s32, doArm7: bool) returns (t9: s32)
      requires |items| == ITEMS && Bounded(o, REACH) && timer < next && next as int <= MAX_WORK
      requires timer == if doArm7 && t7 < start9 then t7 else start9
      requires -REACH <= start9 as int <= 2 * REACH
      modifies this
      ensures View(base + t9 as int, base + t7 as int)
           == Turn9(o, old(View(base + start9 as int, base + t7 as int)), base + next as int, doArm7)
      ensures start9 <= t9 && t9 as int <= 2 * REACH
    {
      hide Step9;
      t9 := start9;
      if !doArm7 || t9 <= timer { t9 := Advance9(base, next, t9, t7); }
    }

    method TakeTurn7(base: int, next: s32, ghost t9: s32, start7: s32, timer: s32, ghost head: Machine)
      returns (t7: s32, handsOver: bool)
      requires |items| == ITEMS && Bounded(o, REACH) && timer < next && next as int <= MAX_WORK && timer <= start7
      requires -REACH <= start7 as int <= 2 * REACH && Floor(head) == base + timer as int
      modifies this
      ensures var m9 := old(View(base + t9 as int, base + start7 as int));
              && View(base + t9 as int, base + t7 as int) == Turn7(o, m9, base + next as int, Floor(head))
              && handsOver == HandsOver(m9, View(base + t9 as int, base + t7 as int), base + next as int, Floor(head))
      ensures start7 <= t7 && t7 as int <= 2 * REACH
    {
      hide Step7;
      t7, handsOver := start7, false;
      if t7 <= timer {
        var idles := arm7.halted || gxStall || true in freezes;
        t7 := Advance7(base, next, t9, t7);
        handsOver := idles && t7 == next;
      }
    }

    /** ARM9's turn in a pass: an instruction, or an idle jump. */
    method Advance9(base: int, next: s32, t9: s32, ghost t7: s32) returns (t: s32)
      requires |items| == ITEMS && Bounded(o, REACH) && -REACH <= t9 as int <= next as int <= MAX_WORK
      modifies this
      ensures View(base + t as int, base + t7 as int)
           == Step9(o, old(View(base + t9 as int, base + t7 as int)), base + next as int)
      ensures t9 <= t && t as int <= 2 * REACH
    {
      hide Fed, Retire;
      if !arm9.halted && !gxStall && true !in freezes {
        t := Instruction9(base, t9, t7);
      } else {
        t := if next < t9 + IRQ_WAIT as s32 then next else t9 + IRQ_WAIT as s32;
        arm9 := arm9.(idle := arm9.idle + (t - t9) as int);
        if gxSize < FIFO_FULL { gxStall := false; }
      }
    }

    method Instruction9(base: int, t9: s32, ghost t7: s32) returns (t: s32)
      requires |items| == ITEMS && Bounded(o, REACH) && -REACH <= t9 as int <= MAX_WORK
      modifies this
      ensures var m, e := old(View(base + t9 as int, base + t7 as int)), o.arm9(old(tick));
              && t as int == t9 as int + e.Cost()
              && View(base + t as int, base + t7 as int) == Retire(Fed(m.(
                   arm9 := m.arm9.Ran(e.Cost(), e.halts), reschedule := m.reschedule || e.feed.sent > 0), e.feed), e)
    {
      hide Fed, Retire;
      var e := o.arm9(tick);
      t := t9 + e.Cost() as s32;
      arm9 := arm9.(halted := e.halts, executed := arm9.executed + e.Cost());
      reschedule := reschedule || e.feed.sent > 0;
      SendGx(e.feed, base + t as int, base + t7 as int);
      Execute(e, base + t as int, base + t7 as int);
    }

    /** ARM7's turn; its cycles are two clock ticks long. */
    method Advance7(base: int, next: s32, ghost t9: s32, t7: s32) returns (t: s32)
      requires |items| == ITEMS && Bounded(o, REACH) && -REACH <= t7 as int <= next as int <= MAX_WORK
      modifies this
      ensures View(base + t9 as int, base + t as int)
          == Step7(o, old(View(base + t9 as int, base + t7 as int)), base + next as int)
      ensures t7 <= t && t as int <= 2 * REACH
    {
      hide Apply, Retire;
      if !arm7.halted && !gxStall && true !in freezes {
        var e := o.arm7(tick);
        var cost := 2 * e.Cost();
        assert cost <= REACH;
        t := t7 + cost as s32;
        arm7 := arm7.(halted := e.halts, executed := arm7.executed + cost);
        Execute(e, base + t9 as int, base + t as int);
      } else {
        t := if next < t7 + IRQ_WAIT as s32 then next else t7 + IRQ_WAIT as s32;
        arm7 := arm7.(idle := arm7.idle + (t - t7) as int);
      }
    }

    /** The CPU part of an iteration: times are cut down to 32 bits and back. */
    method RunCpus()
      requires WellFormed(State()) && Bounded(o, REACH)
      requires -REACH <= arm9.clock - ndsTimer <= REACH && -REACH <= arm7.clock - ndsTimer <= REACH
      requires -REACH <= Horizon(State()) - ndsTimer
      modifies this
      ensures State() == Stretch(o, old(State()))
    {
      hide Inner, Horizon, RollBack;
      var next := NextWork();
      reschedule := false;
      var base := ndsTimer;
      var start9, start7 := (arm9.clock - base) as s32, (arm7.clock - base) as s32;
      var t9, t7 := ArmInnerLoop(base, (next - base) as s32, start9, start7, true);
      arm9, arm7 := arm9.(clock := base + t9 as int), arm7.(clock := base + t7 as int);
      RollBackHalted();
    }

    /** The idle time of a CPU still waiting for an interrupt is taken back. */
    method RollBackHalted()
      modifies `arm9, `arm7
      ensures State() == RollBack(old(State()))
    {
      if arm9.halted { arm9 := arm9.(clock := ndsTimer, idle := arm9.idle - (arm9.clock - ndsTimer)); }
      if arm7.halted { arm7 := arm7.(clock := ndsTimer, idle := arm7.idle - (arm7.clock - ndsTimer)); }
    }

    /** One iteration of NDS_exec. */
    method ExecIteration(ghost b: Bounds)
      requires Safe(o, State(), b) && b.drift <= REACH && WellFormed(State())
      modifies this
      ensures State() == Iterate(o, old(State()))
    {
      hide Poll, Stretch, Safe;
      PolledTimesAreSmall(o, State(), b);
      ExecHardware();
      if frameDone { return; }
      var w := o.interrupts(tick);
      if w.arm9 { arm9 := arm9.(halted := false); }
      if w.arm7 { arm7 := arm7.(halted := false); }
      tick := tick + 1;
      RunCpus();
    }

    /** NDS_exec: runs to the end of the frame, whatever the script. */
    method NdsExec(ghost b: Bounds)
      requires Safe(o, State(), b) && b.drift <= REACH && Progressive(o)
      modifies this
      ensures State() == Frame(o, old(State()).(frameDone := false))
      ensures Safe(o, State(), b)
    {
      hide Iterate;
      frameDone := false;
      ghost var start := State();
      while true
        invariant Safe(o, State(), b) && !frameDone
        invariant Frame(o, State()) == Frame(o, start)
        decreases Remaining(State()), Max(0, items[DISPLAY].when - Floor(State())), Weight(State())
      {
        IterateProgresses(o, State());
        IterateSafe(o, State(), b);
        ExecIteration(b);
        if frameDone { return; }
      }
    }
  }
}
