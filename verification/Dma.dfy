/**
 The DMA controller of source/MMU.cpp and source/MMU.h: one channel as a class
 whose methods update its fields, proved against functions on the channel's
 value, and what every interleaving of register writes, triggers and events
 keeps.

 A copied word is recorded by its two addresses; the memory behind them, and
 the access times that add up to a transfer's length, are not modelled.
 */
module Dma {

  const WORD := 0x1_0000_0000        // one past the largest 32-bit value
  const GX_BURST := 112              // most words one GX FIFO burst copies
  const GX_LOW := 127                // at most this many entries start a burst

  // EDMAMode
  const IMMEDIATE := 0
  const MEM_DISPLAY := 4
  const CARD := 5
  const GX_FIFO := 7
  const WIFI7 := 8
  const GBA_SLOT7 := 9

  // Address update modes.
  const DECREMENT := 1
  const FIXED := 2
  const INVALID := 3                 // for the source; IncrementReload for the destination

  type Addr = a: int | 0 <= a < WORD

  /** One word copied: from where and to where. */
  datatype Pair = Pair(src: Addr, dst: Addr)

  /** The world around a channel when its event runs: FIFO fill, scanline, card
      bytes left, and how long the whole copy takes. */
  datatype Env = Env(now: nat, gxSize: nat, line: nat, cardBytes: nat, elapsed: nat)

  datatype Channel = Channel(
    arm9: bool, chan: nat,
    dmaCheck: bool, running: bool, paused: bool, triggered: bool,
    startmode: nat, wide: bool, sar: nat, dar: nat,
    enable: bool, irq: bool, repeats: bool, modeField: nat,
    wordcount: Addr, saddr: Addr, daddr: Addr, saddrUser: Addr, daddrUser: Addr,
    nextEvent: nat)

  /** A channel with what it does to the outside: whether it freezes the ARM9
      bus, the words it has copied, the length of each burst, its interrupts. */
  datatype State = State(c: Channel, freezes: bool, copied: seq<Pair>, bursts: seq<nat>, irqs: nat)

  /** Whether the bit of value `place` is set. */
  predicate Bit(v: Addr, place: int)
    requires place > 0
  {
    v / place % 2 == 1
  }

  /** The bit field of `width` values that starts at value `place`. */
  function Field(v: Addr, place: int, width: int): (f: nat)
    requires place > 0 && width > 0
    ensures f < width
  {
    v / place % width
  }

  // ------------------------------------------------------------ transfer

  /** The signed distance between consecutive addresses. */
  function Stride(mode: nat, wide: bool, invalidMoves: bool): int {
    var size := if wide then 4 else 2;
    if mode == DECREMENT then -size else if mode == FIXED || (mode >= INVALID && !invalidMoves) then 0 else size
  }

  function SrcStride(c: Channel): int { Stride(c.sar, c.wide, false) }

  function DstStride(c: Channel): int { Stride(c.dar, c.wide, true) }

  function Move(a: Addr, distance: int): Addr { (a + distance) % WORD }

  /** Reference: the `k`-th word of a plain copy loop from `src` to `dst`. */
  function Word(src: Addr, dst: Addr, ss: int, ds: int, k: nat): Pair {
    Pair(Move(src, k * ss), Move(dst, k * ds))
  }

  function Words(src: Addr, dst: Addr, ss: int, ds: int, n: nat): (r: seq<Pair>)
    ensures |r| == n
  {
    seq(n, k requires 0 <= k < n => Word(src, dst, ss, ds, k))
  }

  /** How many words the next copy moves. */
  function Todo(c: Channel, e: Env): nat {
    if c.startmode == MEM_DISPLAY then 128
    else if c.startmode == CARD then e.cardBytes / (if c.wide then 4 else 2)
    else
      var n := if c.arm9 && c.wordcount == 0 then 0x200000 else c.wordcount;
      if c.startmode == GX_FIFO && n > GX_BURST then GX_BURST else n
  }

  function Scheduled(c: Channel, now: nat): Channel { c.(dmaCheck := true, nextEvent := now) }

  /** The word count after a copy of `n` words; it wraps when fewer were left. */
  function Rest(c: Channel, n: nat): Addr {
    if c.repeats then c.wordcount else if c.startmode == CARD then 0 else Move(c.wordcount, 0 - n)
  }

  /** The channel after a copy of `n` words that left the addresses at `src` and
      `dst`: its end is scheduled, addresses and count are written back. */
  function Landed(c: Channel, e: Env, n: nat, src: Addr, dst: Addr): Channel {
    Scheduled(c, e.now).(
      nextEvent := e.now + e.elapsed,
      saddr := src,
      daddr := if c.dar == INVALID then c.daddr else dst,
      wordcount := Rest(c, n))
  }

  function DoCopy(s: State, e: Env): State {
    var c := s.c.(enable := s.c.enable && !(s.c.startmode == MEM_DISPLAY && e.line == 191));
    var n := Todo(c, e);
    var ss, ds := SrcStride(c), DstStride(c);
    State(Landed(c, e, n, Move(c.saddr, n * ss), Move(c.daddr, n * ds)), s.freezes || c.arm9,
          s.copied + Words(c.saddr, c.daddr, ss, ds, n), s.bursts + [n], s.irqs)
  }

  function DoStop(s: State): State {
    s.(c := s.c.(running := false, enable := s.c.enable && s.c.repeats), irqs := s.irqs + if s.c.irq then 1 else 0)
  }

  function StartMode(c: Channel): nat {
    if c.arm9 then c.modeField
    else
      match c.modeField / 2
      case 0 => IMMEDIATE
      case 1 => 1
      case 2 => CARD
      case _ => if c.chan == 1 || c.chan == 3 then GBA_SLOT7 else WIFI7
  }

  /** The second half of exec: latch the mode, and copy if triggered. */
  function Start(s: State, e: Env): State {
    if !s.c.enable then s
    else
      var c := s.c.(startmode := StartMode(s.c));
      var hit := c.triggered || c.startmode == IMMEDIATE || (c.startmode == GX_FIFO && e.gxSize <= GX_LOW);
      var r := s.(c := c.(triggered := hit));
      if hit then DoCopy(r.(c := r.c.(running := true, paused := false)), e) else r
  }

  /** DmaController::exec */
  function Exec(s: State, e: Env): State {
    var t := State(s.c.(dmaCheck := false), s.freezes && !s.c.arm9, s.copied, s.bursts, s.irqs);
    if !s.c.running then Start(t, e)
    else if s.c.startmode == GX_FIFO && s.c.wordcount > 0
      then Start(t.(c := t.c.(triggered := false, paused := true)), e)
    else DoStop(t)
  }

  /** DmaController::tryTrigger */
  function TryTrigger(s: State, mode: nat, now: nat): State {
    if s.c.startmode != mode || !s.c.enable || (s.c.running && !s.c.paused) then s
    else s.(c := Scheduled(s.c.(triggered := true), now))
  }

  /** The fields of a control word, as write32 takes them apart. */
  function Latched(c: Channel, val: Addr): Channel {
    var field := Field(val, 0x800_0000, 8);
    c.(wordcount := Field(val, 1, 0x20_0000),
       dar := Field(val, 0x20_0000, 4),
       sar := Field(val, 0x80_0000, 4),
       repeats := Bit(val, 0x200_0000),
       wide := Bit(val, 0x400_0000),
       modeField := if c.arm9 then field else field - field % 2,
       irq := Bit(val, 0x4000_0000),
       enable := Bit(val, 0x8000_0000))
  }

  /** The channel after that: enabling it afresh drops old triggers and reloads the
      addresses. */
  function Reloaded(c: Channel, wasEnabled: bool): Channel {
    c.(triggered := c.triggered && (wasEnabled || !c.enable),
       saddr := if c.enable then c.saddrUser else c.saddr,
       daddr := if c.enable then c.daddrUser else c.daddr)
  }

  /** DmaController::write32 */
  function Write32(s: State, val: Addr, now: nat): State {
    var w := Reloaded(Latched(s.c, val), s.c.enable);
    if w.startmode != IMMEDIATE && w.startmode != GX_FIFO && s.c.enable then s.(c := w)
    else s.(c := Scheduled(w, now))
  }

  // ------------------------------------------------- no deadlocked channel

  /** A frozen bus, and a channel in flight, always have an event to end them. */
  predicate Alive(s: State) {
    && (s.freezes ==> s.c.arm9 && s.c.dmaCheck)
    && (s.c.running && !s.c.paused ==> s.c.dmaCheck)
  }

  /** Anything that can happen to a channel. */
  datatype Op = Control(val: Addr, at: nat) | Source(val: Addr) | Destination(val: Addr) | Trigger(mode: nat, at: nat)
        | Event(env: Env)

  /** The sequencer runs a channel's event only while it is to be checked. */
  function Do(s: State, op: Op): State {
    match op
    case Control(val, at) => Write32(s, val, at)
    case Source(val) => s.(c := s.c.(saddrUser := val))
    case Destination(val) => s.(c := s.c.(daddrUser := val))
    case Trigger(mode, at) => TryTrigger(s, mode, at)
    case Event(e) => if s.c.dmaCheck then Exec(s, e) else s
  }

  lemma DoStaysAlive(s: State, op: Op)
    requires Alive(s)
    ensures Alive(Do(s, op))
  {
    hide Move, Words, Todo;
  }

  /** A channel's event thaws the bus unless it starts another burst. */
  lemma EventThaws(s: State, e: Env)
    requires Alive(s) && s.c.arm9 && s.c.dmaCheck
    ensures Exec(s, e).freezes <==> |Exec(s, e).bursts| > |s.bursts|
    ensures Exec(s, e).freezes ==> Exec(s, e).c.nextEvent == e.now + e.elapsed
  {
    hide Move, Words, Todo;
  }

  /** All channels together: each operation goes to one of them.  The bus is
      frozen while the bit of any ARM9 channel is set. */
  function System(all: seq<State>, ops: seq<(nat, Op)>): (r: seq<State>)
    ensures |r| == |all|
    decreases |ops|
  {
    if ops == [] then all
    else
      var (k, op) := ops[0];
      System(if k < |all| then all[k := Do(all[k], op)] else all, ops[1..])
  }

  /** Under every interleaving, whichever channel freezes the bus has a pending
      event, and so has every channel in flight that is not paused. */
  lemma {:induction false} NoBusDeadlock(all: seq<State>, ops: seq<(nat, Op)>)
    requires forall k :: 0 <= k < |all| ==> Alive(all[k])
    ensures forall k :: 0 <= k < |all| ==> Alive(System(all, ops)[k])
    decreases |ops|
  {
    hide Do, Alive;
    if ops != [] {
      var (k, op) := ops[0];
      if k < |all| { DoStaysAlive(all[k], op); }
      NoBusDeadlock(if k < |all| then all[k := Do(all[k], op)] else all, ops[1..]);
    }
  }
}
