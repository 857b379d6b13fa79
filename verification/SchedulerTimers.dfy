/**
 The timers as events of the scheduler: a timer whose period is longer than any
 instruction loses no overflow, however DMA freezes the bus.
 */
module SchedulerTimers {
  import opened SchedulerModel
  import opened SchedulerProofs
  import opened SchedulerRuns
  import opened SchedulerFreeze
  import Timers

  /** The events of `item` in a log, in order. */
  function Events(fired: seq<Fired>, item: nat): (r: seq<Fired>)
    ensures forall k :: 0 <= k < |r| ==> r[k].item == item && r[k] in fired
  {
    if fired == [] then []
    else
      var front, last := fired[..|fired| - 1], fired[|fired| - 1];
      Events(front, item) + if last.item == item then [last] else []
  }

  /** Every event of the timer programs the next one as its catch-up loop says, and
      nothing else moves it. */
  predicate Reloads(events: seq<Fired>, t: Timers.Timer) {
    forall k :: 0 <= k && k + 1 < |events| && events[k].due <= events[k].at ==>
      events[k + 1].due == Timers.CaughtUp(t.(cycle := events[k].due), events[k].at)
  }

  /** An event that runs less than a period late catches up by one period. */
  lemma CatchesUpOnce(t: Timers.Timer, f: Fired, C: int)
    requires f.due <= f.at <= f.due + C && C < Timers.Period(t)
    ensures Timers.CaughtUp(t.(cycle := f.due), f.at) == f.due + Timers.Period(t)
  {
    var s := t.(cycle := f.due);
    assert Timers.Period(s) == Timers.Period(t);
    hide Timers.Period;
    Timers.OneOverflowPerEvent(s, f.at);
  }

  lemma {:induction false} EvenlySpaced(fired: seq<Fired>, events: seq<Fired>, t: Timers.Timer, C: int, k: nat)
    requires Punctual(fired, C) && C < Timers.Period(t) && Reloads(events, t) && k < |events|
    requires forall j :: 0 <= j < |events| ==> events[j] in fired
    ensures events[k].due == events[0].due + k * Timers.Period(t)
  {
    hide Timers.CaughtUp, Timers.Period;
    if k > 0 {
      EvenlySpaced(fired, events, t, C, k - 1);
      var f := events[k - 1];
      assert f in fired;
      var j :| 0 <= j < |fired| && fired[j] == f;
      CatchesUpOnce(t, f, C);
      assert events[k - 1 + 1].due == f.due + Timers.Period(t);
      assert k * Timers.Period(t) == (k - 1) * Timers.Period(t) + Timers.Period(t);
    }
  }

  /** In a run whose bus thaws at once, the overflows of such a timer come exactly a
      period apart: each one is reported to the cascade and the interrupt controller. */
  lemma {:induction false} NoOverflowIsLost(o: Oracle, n: nat, C: int, item: nat, t: Timers.Timer, k: nat)
    requires Bounded(o, C) && 0 < C < Timers.Period(t) && ThawsAtOnce(o, n) && TIMER_0 <= item < DMA_0
    requires Reloads(Events(Run(o, Boot(), n).fired, item), t)
    ensures var events := Events(Run(o, Boot(), n).fired, item);
            k < |events| ==> events[k].due == events[0].due + k * Timers.Period(t) && events[k].at <= events[k].due + C
  {
    hide Run, Reloads, Timers.Period;
    PromptThawsArePunctual(o, n, C);
    var fired := Run(o, Boot(), n).fired;
    var events := Events(fired, item);
    if k < |events| {
      EvenlySpaced(fired, events, t, C, k);
      var j :| 0 <= j < |fired| && fired[j] == events[k];
    }
  }

  /** In particular in runs in which nothing but DMA freezes the bus, calm ones among
      them. */
  lemma {:induction false} NoOverflowIsLostToDma(o: Oracle, n: nat, C: int, item: nat, t: Timers.Timer, k: nat)
    requires Bounded(o, C) && 0 < C < Timers.Period(t) && NeverStalls(o) && TIMER_0 <= item < DMA_0
    requires Reloads(Events(Run(o, Boot(), n).fired, item), t)
    ensures var events := Events(Run(o, Boot(), n).fired, item);
            k < |events| ==> events[k].due == events[0].due + k * Timers.Period(t) && events[k].at <= events[k].due + C
  {
    hide Run, Reloads, Events, Timers.Period;
    DmaThawsAtOnce(o, n);
    NoOverflowIsLost(o, n, C, item, t, k);
  }
}
