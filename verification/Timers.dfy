/**
 The hardware timers: four a CPU, each either counting prescaled cycles or
 counting the overflows of the timer before it (source/MMU.cpp read_timer and
 write_timer, source/NDSSystem.cpp TSequenceItem_Timer).

 A prescaled timer is never stepped; only the time of its next overflow is kept.
 */
module Timers {
  import opened Arith

  const COUNTS := 0x1_0000       // a counter overflows at this value
  const CASCADE := 0xFFFF        // the mode of a timer that counts overflows

  type Half = v: int | 0 <= v < COUNTS

  /** One timer.  `cycle` is when a running prescaled timer next overflows. */
  datatype Timer = Timer(on: bool, mode: int, value: Half, reload: Half, cycle: int, irq: bool)

  /** Cycles per count, one of the four prescalers. */
  function Scale(mode: int): (s: int)
    ensures 0 < s <= 0x800
  {
    if mode == 7 then 0x80 else if mode == 9 then 0x200 else if mode == 11 then 0x800 else 2
  }

  function Radix(t: Timer): (r: int)
    ensures 1 <= r <= COUNTS
  {
    COUNTS - t.reload
  }

  /** Cycles from one overflow to the next. */
  function Period(t: Timer): (p: int)
    ensures 0 < p <= 0x800 * COUNTS
  {
    Radix(t) * Scale(t.mode)
  }

  /** A 64-bit difference cut down to a signed 32-bit value. */
  function S32(x: int): int {
    var low := x % 0x1_0000_0000;
    if low >= 0x8000_0000 then low - 0x1_0000_0000 else low
  }

  /** C's division, which truncates. */
  function Quotient(x: int, d: int): int
    requires d > 0
  {
    if x < 0 then -(-x / d) else x / d
  }

  /** read_timer */
  function ReadTimer(t: Timer, now: int): Half {
    if t.mode == CASCADE || !t.on then t.value
    else
      var units := Quotient(S32(t.cycle - now), Scale(t.mode));
      if units >= COUNTS then 0 else (65535 - units) % COUNTS
  }

  function ModeOf(val: nat): int {
    match val % 8 case 0 => 1 case 1 => 7 case 2 => 9 case 3 => 11 case _ => CASCADE
  }

  /** write_timer; the overflow time of a cascading timer is never used, and its
      computation in the source shifts by more than a word's width: `junk`. */
  function WriteTimer(t: Timer, val: nat, now: int, junk: int): Timer {
    var start := val / 0x80 % 2 == 1;
    var value := if start then t.reload else if t.on then ReadTimer(t, now) else t.value;
    var w := Timer(start, ModeOf(val), value, t.reload, 0, val / 0x40 % 2 == 1);
    w.(cycle := if w.mode == CASCADE then junk else now + Period(w))
  }

  // ---------------------------------------------------- reading a timer

  /** The count a timer should show `k` cycles after its start. */
  function Ideal(t: Timer, k: nat): int { t.reload + k / Scale(t.mode) % Radix(t) }

  /** What a timer started at `start` shows `k` cycles later, within one period:
      one cycle behind, and below its own reload value at first. */
  lemma ReadAfterStart(t: Timer, start: int, k: nat)
    requires t.on && t.mode != CASCADE && t.cycle == start + Period(t) && k <= Period(t)
    ensures ReadTimer(t, start + k)
         == if k == 0 then (if t.reload == 0 then 0 else t.reload - 1) else t.reload + (k - 1) / Scale(t.mode)
  {
    var s, n := Scale(t.mode), Radix(t);
    var d := n * s - k;
    assert S32(t.cycle - (start + k)) == d;
    if k == 0 {
      QuotientIs(d, s, n);
    } else {
      var q := (k - 1) / s;
      CountsBack(n, s, k);
      QuotientIs(d, s, n - 1 - q);
    }
  }

  /** Counting `k` cycles down from `n` counts of `s` cycles. */
  lemma CountsBack(n: int, s: int, k: int)
    requires 0 < s && 1 <= k <= n * s
    ensures var u := n - 1 - (k - 1) / s; 0 <= u < n && u * s <= n * s - k < u * s + s
  {
    var q := (k - 1) / s;
    Division(k - 1, s);
    Order(n - 1, q, s);
    Order(q, 0, s);
    assert (n - 1 - q) * s == n * s - s - q * s && (n - 1) * s == n * s - s;
  }

  lemma IdealWithinPeriod(t: Timer, k: nat)
    requires k < Period(t)
    ensures Ideal(t, k) == t.reload + k / Scale(t.mode)
  {
    var s, n := Scale(t.mode), Radix(t);
    Division(k, s);
    Order(n - 1, k / s, s);
    assert (n - 1) * s == n * s - s;
    QuotientIs(k / s, n, 0);
    Division(k / s, n);
  }

  /** A reading is the ideal count exactly between two counts; on a count it is
      one too low, save at the start of a timer that reloads zero. */
  lemma ReadIsIdeal(t: Timer, start: int, k: nat)
    requires t.on && t.mode != CASCADE && t.cycle == start + Period(t) && k < Period(t)
    ensures ReadTimer(t, start + k) == Ideal(t, k) <==> (k % Scale(t.mode) != 0 || (k == 0 && t.reload == 0))
  {
    hide Ideal, ReadTimer;
    var s := Scale(t.mode);
    ReadAfterStart(t, start, k);
    IdealWithinPeriod(t, k);
    Division(k, s);
    if k > 0 {
      QuotientIs(k - 1, s, if k % s == 0 then k / s - 1 else k / s);
    } else {
      QuotientIs(0, s, 0);
    }
  }

  /** Read after its overflow but before the event that reloads it, a timer shows its last
      count for one more count and then counts from 0, whatever its reload value. */
  lemma OverdueReading(t: Timer, late: nat)
    requires t.on && t.mode != CASCADE && late <= 0x8000_0000
    ensures ReadTimer(t, t.cycle + late)
         == if late < Scale(t.mode) then 65535 else (late / Scale(t.mode) - 1) % 0x1_0000
  {
    var overdue: int := 0 - late;
    var q := late / Scale(t.mode);
    assert S32(overdue) == overdue && Quotient(overdue, Scale(t.mode)) == 0 - q;
    if q > 0 { Wraps(q - 1, 0x1_0000, 1); } else { Division(late, Scale(t.mode)); }
  }

  /** The two low bits of the control register select 2, 128, 512 or 2048 ticks a count, in
      which a timer started by it climbs from its reload value; its bit 2 makes the timer
      count overflows, and hold still by itself. */
  lemma ControlSelectsPrescaler(t: Timer, val: nat, now: int, junk: int, k: nat)
    requires val / 0x80 % 2 == 1
    ensures var w, ticks := WriteTimer(t, val, now, junk), [2, 128, 512, 2048][val % 4];
            && w.on && w.value == t.reload && (w.irq <==> val / 0x40 % 2 == 1)
            && (val / 4 % 2 == 1 ==> ReadTimer(w, now + k) == t.reload)
            && (val / 4 % 2 == 0 ==>
                  && w.cycle == now + (0x1_0000 - t.reload) * ticks
                  && (0 < k <= (0x1_0000 - t.reload) * ticks ==> ReadTimer(w, now + k) == t.reload + (k - 1) / ticks))
  {
    ModeBits(val);
    var w := WriteTimer(t, val, now, junk);
    if val / 4 % 2 == 0 && 0 < k <= Period(w) { ReadAfterStart(w, now, k); }
    hide ReadTimer;
  }

  lemma ModeBits(val: nat)
    ensures val / 4 % 2 == 1 <==> val % 8 >= 4
    ensures val % 8 < 4 ==> val % 8 == val % 4
  {
  }

  /** Stopping a timer freezes the count that a reading showed last. */
  lemma StopFreezesCount(t: Timer, val: nat, now: int, junk: int, later: int)
    requires t.on && val / 0x80 % 2 == 0
    ensures ReadTimer(WriteTimer(t, val, now, junk), later) == ReadTimer(t, now)
  {
  }

  // --------------------------------------------------------- overflows

  /** A due timer's overflow time after the catch-up loop. */
  function CaughtUp(t: Timer, now: int): int
    decreases if t.cycle <= now then now - t.cycle + 1 else 0
  {
    if t.cycle <= now then CaughtUp(t.(cycle := t.cycle + Period(t)), now) else t.cycle
  }

  /** One overflow coming into timer `i`: it and its followers count it as far
      as they are running cascades. */
  function Carry(ts: seq<Timer>, i: nat): (r: seq<Timer>)
    requires i <= |ts|
    ensures |r| == |ts|
    decreases |ts| - i
  {
    if i == |ts| || !ts[i].on || ts[i].mode != CASCADE then ts
    else if ts[i].value == COUNTS - 1 then Carry(ts[i := ts[i].(value := ts[i].reload)], i + 1)
    else ts[i := ts[i].(value := ts[i].value + 1)]
  }

  /** TSequenceItem_Timer::exec for a running prescaled timer. */
  function Overflow(ts: seq<Timer>, i: nat, now: int): (r: seq<Timer>)
    requires i < |ts|
    ensures |r| == |ts|
  {
    Carry(ts[i := ts[i].(cycle := CaughtUp(ts[i], now), value := ts[i].reload)], i + 1)
  }

  /** The next overflow is the first one after `now` that keeps the timer's
      phase: whatever the lateness of the event, overflows never drift. */
  lemma {:induction false} CatchUpKeepsPhase(t: Timer, now: int)
    requires t.cycle <= now
    ensures var c := CaughtUp(t, now);
            now < c <= now + Period(t) && (c - t.cycle) % Period(t) == 0
    decreases now - t.cycle
  {
    var n := t.(cycle := t.cycle + Period(t));
    if n.cycle <= now {
      CatchUpKeepsPhase(n, now);
      AddPeriod(CaughtUp(n, now) - n.cycle, Period(t));
    } else {
      AddPeriod(0, Period(t));
    }
  }

  lemma AddPeriod(x: nat, p: int)
    requires p > 0 && x % p == 0
    ensures (x + p) % p == 0
  {
    Division(x, p);
    Division(x + p, p);
    QuotientIs(x + p, p, x / p + 1);
  }

  /** Several periods can have passed by the time the event runs, but the chain
      behind the timer is told of one: none is lost exactly if the event ran
      within a period of its time. */
  lemma OneOverflowPerEvent(t: Timer, now: int)
    requires t.cycle <= now
    ensures CaughtUp(t, now) == t.cycle + Period(t) <==> now < t.cycle + Period(t)
  {
    CatchUpKeepsPhase(t, now);
  }

  // ------------------------------------------------------------ cascades

  /** Overflows the chain from timer `i` on takes in per overflow of its last timer. */
  function Size(ts: seq<Timer>, i: nat): (n: int)
    requires i <= |ts|
    ensures n >= 1
    decreases |ts| - i
  {
    if i == |ts| || !ts[i].on || ts[i].mode != CASCADE then 1
    else Product(Radix(ts[i]), Size(ts, i + 1))
  }

  function Product(a: int, b: int): (p: int)
    requires a >= 1 && b >= 1
    ensures p >= a && p >= b
  {
    assert a * b >= a && a * b >= b by {
      Order(0, b - 1, a);
      Order(0, a - 1, b);
      assert (b - 1) * a == a * b - a && (a - 1) * b == a * b - b;
    }
    a * b
  }

  /** Overflows still to come before the last timer of the chain overflows. */
  function Left(ts: seq<Timer>, i: nat): (n: int)
    requires i <= |ts|
    ensures n >= 1
    decreases |ts| - i
  {
    if i == |ts| || !ts[i].on || ts[i].mode != CASCADE then 1
    else
      var rest := Left(ts, i + 1);
      COUNTS - ts[i].value + if rest == 1 then 0 else Product(Radix(ts[i]), rest - 1)
  }

  lemma {:induction false} ChainIgnoresEarlier(ts: seq<Timer>, i: nat, k: nat, t: Timer)
    requires k < i <= |ts|
    ensures Left(ts[k := t], i) == Left(ts, i) && Size(ts[k := t], i) == Size(ts, i)
    ensures Carry(ts[k := t], i) == Carry(ts, i)[k := t]
    decreases |ts| - i
  {
    if i < |ts| {
      ChainIgnoresEarlier(ts, i + 1, k, t);
      if ts[i].on && ts[i].mode == CASCADE {
        if ts[i].value == COUNTS - 1 {
          var u := ts[i].(value := ts[i].reload);
          ChainIgnoresEarlier(ts[i := u], i + 1, k, t);
          assert ts[k := t][i := u] == ts[i := u][k := t];
        } else {
          var u := ts[i].(value := ts[i].value + 1);
          assert ts[k := t][i := u] == ts[i := u][k := t];
        }
      }
    }
  }

  /** The chain is a mixed-radix odometer, whatever values its timers were set
      to: each incoming overflow brings the last timer's one step nearer, and
      that one starts the full round again. */
  lemma {:induction false} CarryCountsDown(ts: seq<Timer>, i: nat)
    requires i <= |ts|
    ensures var r := Carry(ts, i);
            Size(r, i) == Size(ts, i) && Left(r, i) == if Left(ts, i) == 1 then Size(ts, i) else Left(ts, i) - 1
    decreases |ts| - i
  {
    hide Product;
    if i < |ts| && ts[i].on && ts[i].mode == CASCADE {
      var u := ts[i].(value := if ts[i].value == COUNTS - 1 then ts[i].reload else ts[i].value + 1);
      var next := ts[i := u];
      ChainIgnoresEarlier(ts, i + 1, i, u);
      if ts[i].value == COUNTS - 1 {
        CarryCountsDown(next, i + 1);
        CarryKeepsEarlier(next, i + 1, i);
        ProductStep(Radix(u), Left(Carry(next, i + 1), i + 1));
      }
    }
  }

  lemma ProductStep(a: int, b: int)
    requires a >= 1 && b >= 1
    ensures Product(a, b) == a + if b == 1 then 0 else Product(a, b - 1)
  {
    assert a * (b - 1) + a == a * b;
  }

  lemma {:induction false} CarryKeepsEarlier(ts: seq<Timer>, i: nat, k: nat)
    requires k < i <= |ts|
    ensures Carry(ts, i)[k] == ts[k]
    decreases |ts| - i
  {
    if i < |ts| && ts[i].on && ts[i].mode == CASCADE && ts[i].value == COUNTS - 1 {
      CarryKeepsEarlier(ts[i := ts[i].(value := ts[i].reload)], i + 1, k);
    }
  }

  function Carries(ts: seq<Timer>, i: nat, n: nat): (r: seq<Timer>)
    requires i <= |ts|
    ensures |r| == |ts|
  {
    if n == 0 then ts else Carry(Carries(ts, i, n - 1), i)
  }

  /** So the last timer overflows with the `Left`-th incoming overflow and not
      before. */
  lemma {:induction false} ChainRoundTrip(ts: seq<Timer>, i: nat, n: nat)
    requires i <= |ts| && n <= Left(ts, i)
    ensures Size(Carries(ts, i, n), i) == Size(ts, i)
    ensures Left(Carries(ts, i, n), i) == if n < Left(ts, i) then Left(ts, i) - n else Size(ts, i)
  {
    if n > 0 {
      ChainRoundTrip(ts, i, n - 1);
      CarryCountsDown(Carries(ts, i, n - 1), i);
    }
  }

  /** The timers that interrupt when an overflow comes into timer `i`. */
  function CarryIrqs(ts: seq<Timer>, i: nat): seq<nat>
    requires i <= |ts|
    decreases |ts| - i
  {
    if i == |ts| || !ts[i].on || ts[i].mode != CASCADE || ts[i].value != COUNTS - 1 then []
    else (if ts[i].irq then [i] else []) + CarryIrqs(ts, i + 1)
  }

  /** The state of the overflow loop: the timers and the interrupts raised. */
  datatype Chain = Chain(ts: seq<Timer>, irqs: seq<nat>)

  /** The overflow loop of exec from timer `i` on; `first` until it has passed
      the prescaled timer it was started for. */
  function ExecFrom(c: Chain, i: nat, first: bool, now: int): Chain
    requires i <= |c.ts|
    decreases |c.ts| - i
  {
    if i == |c.ts| || !c.ts[i].on || (c.ts[i].mode != CASCADE && !first) then c
    else
      var t := c.ts[i];
      if t.mode == CASCADE && t.value != COUNTS - 1 then c.(ts := c.ts[i := t.(value := t.value + 1)])
      else
        var cycle := if t.mode == CASCADE then t.cycle else CaughtUp(t, now);
        ExecFrom(Chain(c.ts[i := t.(value := t.reload, cycle := cycle)], c.irqs + if t.irq then [i] else []),
                 i + 1, first && t.mode == CASCADE, now)
  }

  /** Past the first timer the loop is the carry into a cascade. */
  lemma {:induction false} LoopCarries(c: Chain, i: nat, now: int)
    requires i <= |c.ts|
    ensures ExecFrom(c, i, false, now) == Chain(Carry(c.ts, i), c.irqs + CarryIrqs(c.ts, i))
    decreases |c.ts| - i
  {
    hide CaughtUp;
    if i < |c.ts| && c.ts[i].on && c.ts[i].mode == CASCADE && c.ts[i].value == COUNTS - 1 {
      var t := c.ts[i];
      var next := c.ts[i := t.(value := t.reload)];
      LoopCarries(Chain(next, c.irqs + if t.irq then [i] else []), i + 1, now);
      IrqsIgnoreEarlier(next, c.ts, i + 1);
    }
  }

  lemma {:induction false} IrqsIgnoreEarlier(ts: seq<Timer>, us: seq<Timer>, i: nat)
    requires i <= |ts| == |us| && forall k :: i <= k < |ts| ==> ts[k] == us[k]
    ensures CarryIrqs(ts, i) == CarryIrqs(us, i)
    decreases |ts| - i
  {
    if i < |ts| { IrqsIgnoreEarlier(ts, us, i + 1); }
  }

  /** For the timers the sequencer runs it on, the whole loop is one overflow
      with its carries. */
  lemma ExecIsOverflow(c: Chain, i: nat, now: int)
    requires i < |c.ts| && c.ts[i].on && c.ts[i].mode != CASCADE
    ensures ExecFrom(c, i, true, now)
         == Chain(Overflow(c.ts, i, now), c.irqs + (if c.ts[i].irq then [i] else []) + CarryIrqs(c.ts, i + 1))
  {
    var t := c.ts[i];
    var next := c.ts[i := t.(value := t.reload, cycle := CaughtUp(t, now))];
    LoopCarries(Chain(next, c.irqs + if t.irq then [i] else []), i + 1, now);
    IrqsIgnoreEarlier(next, c.ts, i + 1);
  }

  // ------------------------------------------------------ the timer unit

  /** The four timers of one CPU, updated in place. */
  class TimerUnit {
    const timers: array<Timer>
    ghost var irqs: seq<nat>

    constructor ()
      ensures fresh(timers) && timers.Length == 4 && irqs == []
      ensures forall i :: 0 <= i < 4 ==> timers[i] == Timer(false, 0, 0, 0, 0, false)
    {
      timers := new Timer[4](_ => Timer(false, 0, 0, 0, 0, false));
      irqs := [];
    }

    /** write_timer */
    method Write(i: nat, val: nat, now: int, junk: int)
      requires i < timers.Length
      modifies timers
      ensures timers[..] == old(timers[..])[i := WriteTimer(old(timers[i]), val, now, junk)]
    {
      var t := timers[i];
      if val / 0x80 % 2 == 1 {
        timers[i] := timers[i].(value := t.reload);
      } else if t.on {
        timers[i] := timers[i].(value := ReadTimer(t, now));
      }
      timers[i] := timers[i].(on := val / 0x80 % 2 == 1, irq := val / 0x40 % 2 == 1);
      timers[i] := timers[i].(mode := ModeOf(val));
      timers[i] := timers[i].(cycle := if timers[i].mode == CASCADE then junk else now + Period(timers[i]));
    }

    /** TSequenceItem_Timer::exec */
    method Exec(num: nat, now: int)
      requires num < timers.Length
      modifies timers, `irqs
      ensures Chain(timers[..], irqs) == ExecFrom(Chain(old(timers[..]), old(irqs)), num, true, now)
    {
      var i, first := num, true;
      while i < timers.Length
        invariant num <= i <= timers.Length
        invariant ExecFrom(Chain(timers[..], irqs), i, first, now)
            == ExecFrom(Chain(old(timers[..]), old(irqs)), num, true, now)
      {
        ghost var head, raised := timers[..], irqs;
        var over := false;
        if !timers[i].on { return; }
        if timers[i].mode == CASCADE {
          over := timers[i].value == COUNTS - 1;
          timers[i] := timers[i].(value := if over then 0 else timers[i].value + 1);
        } else {
          if !first { break; }
          first := false;
          over := true;
          CatchUp(i, now);
        }
        if !over { break; }
        timers[i] := timers[i].(value := timers[i].reload);
        if timers[i].irq { irqs := irqs + [i]; }
        assert timers[..] == head[i := timers[i]] && irqs == raised + if head[i].irq then [i] else [];
        i := i + 1;
      }
    }

    /** The catch-up loop of exec. */
    method CatchUp(i: nat, now: int)
      requires i < timers.Length
      modifies timers
      ensures timers[..] == old(timers[..])[i := old(timers[i]).(cycle := CaughtUp(old(timers[i]), now))]
    {
      while timers[i].cycle <= now
        invariant timers[..] == old(timers[..])[i := old(timers[i]).(cycle := timers[i].cycle)]
        invariant CaughtUp(timers[i], now) == CaughtUp(old(timers[i]), now)
        decreases now - timers[i].cycle
      {
        timers[i] := timers[i].(cycle := timers[i].cycle + Period(timers[i]));
      }
    }
  }
}
