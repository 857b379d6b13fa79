/**
 A GX FIFO transfer is cut into bursts by exec and doPause, with waits in
 between for the FIFO to drain.  For every word count, address mode and schedule
 of events and triggers, the bursts together are the one plain copy loop.
 */
module DmaBursts {
  import opened Dma

  /** What a transfer was programmed to do. */
  datatype Job = Job(n: nat, src: Addr, dst: Addr, ss: int, ds: int, irq: bool)

  function Min(a: int, b: int): int { if a < b then a else b }

  /** The control fields a transfer keeps from start to end. */
  predicate Programmed(j: Job, c: Channel) {
    && c.arm9 && c.modeField == GX_FIFO && !c.repeats && c.irq == j.irq
    && c.sar < INVALID && c.dar < INVALID && SrcStride(c) == j.ss && DstStride(c) == j.ds
    && 1 <= j.n < 0x20_0000
  }

  /** How far a transfer has come, in words, bursts and addresses. */
  predicate Progress(j: Job, s: State, done: int) {
    && 0 <= done == j.n - s.c.wordcount == Min(j.n, GX_BURST * |s.bursts|)
    && s.copied == Words(j.src, j.dst, j.ss, j.ds, done)
    && s.c.saddr == Move(j.src, done * j.ss) && s.c.daddr == Move(j.dst, done * j.ds)
    && (forall k :: 0 <= k < |s.bursts| ==> GX_BURST * k < j.n && s.bursts[k] == Min(GX_BURST, j.n - GX_BURST * k))
  }

  /** The states of a transfer: waiting for its first burst, in a burst, paused
      between bursts, or finished. */
  predicate OnTrack(j: Job, s: State) {
    && Programmed(j, s.c) && Alive(s) && Progress(j, s, j.n - s.c.wordcount)
    && (if s.c.enable then
          && s.irqs == 0
          && (if s.bursts == [] then !s.c.running
              else s.c.running && s.c.startmode == GX_FIFO && (s.c.paused ==> s.c.wordcount > 0))
        else !s.c.running && s.c.wordcount == 0 && s.irqs == (if j.irq then 1 else 0) && !s.freezes)
  }

  lemma MoveOn(a: Addr, done: int, n: int, d: int)
    ensures Move(Move(a, done * d), n * d) == Move(a, (done + n) * d)
  {
    assert done * d + n * d == (done + n) * d;
  }

  lemma CountDown(w: Addr, n: nat)
    requires n <= w
    ensures Move(w, 0 - n) == w - n
  {
  }

  /** Two loops, the second from where the first stopped, are one loop. */
  lemma WordsJoin(src: Addr, dst: Addr, ss: int, ds: int, a: nat, b: nat)
    ensures Words(src, dst, ss, ds, a) + Words(Move(src, a * ss), Move(dst, a * ds), ss, ds, b)
         == Words(src, dst, ss, ds, a + b)
  {
    var second := Words(Move(src, a * ss), Move(dst, a * ds), ss, ds, b);
    forall k | 0 <= k < b ensures second[k] == Word(src, dst, ss, ds, a + k) {
      MoveOn(src, a, k, ss);
      MoveOn(dst, a, k, ds);
    }
  }

  /** One burst. */
  lemma BurstKeepsTrack(j: Job, s: State, e: Env)
    requires Programmed(j, s.c) && Progress(j, s, j.n - s.c.wordcount)
    requires s.c.enable && s.irqs == 0 && 0 < s.c.wordcount && s.c.startmode == GX_FIFO && s.c.running && !s.c.paused
    ensures OnTrack(j, DoCopy(s, e)) && |DoCopy(s, e).bursts| == |s.bursts| + 1
  {
    hide Words, Move;
    var done, n := j.n - s.c.wordcount, Todo(s.c, e);
    assert n == Min(GX_BURST, s.c.wordcount);
    WordsJoin(j.src, j.dst, j.ss, j.ds, done, n);
    MoveOn(j.src, done, n, j.ss);
    MoveOn(j.dst, done, n, j.ds);
    CountDown(s.c.wordcount, n);
  }

  lemma EventKeepsTrack(j: Job, s: State, e: Env)
    requires OnTrack(j, s) && s.c.dmaCheck
    ensures OnTrack(j, Exec(s, e))
  {
    hide Words, Move, DoCopy;
    var c := s.c.(dmaCheck := false);
    var t := if s.c.running then c.(triggered := false, paused := true) else c;
    var hot := s.(c := t.(startmode := GX_FIFO, triggered := true, running := true, paused := false), freezes := false);
    if s.c.enable && s.c.wordcount > 0 { BurstKeepsTrack(j, hot, e); }
  }

  /** Whatever events and triggers come, and whatever they find in the FIFO. */
  lemma {:induction false} TransferStaysOnTrack(j: Job, s: State, ops: seq<Op>)
    requires OnTrack(j, s)
    requires forall k :: 0 <= k < |ops| ==> ops[k].Event? || ops[k].Trigger?
    ensures OnTrack(j, DoAll(s, ops))
    decreases |ops|
  {
    hide Exec;
    if ops != [] {
      if ops[0].Event? && s.c.dmaCheck { EventKeepsTrack(j, s, ops[0].env); }
      TransferStaysOnTrack(j, Do(s, ops[0]), ops[1..]);
    }
  }

  function DoAll(s: State, ops: seq<Op>): State
    decreases |ops|
  {
    if ops == [] then s else DoAll(Do(s, ops[0]), ops[1..])
  }

  /** Programming an idle channel for the GX FIFO starts a transfer on track. */
  lemma WriteStartsTransfer(s: State, val: Addr, now: nat)
    requires s == State(s.c, false, [], [], 0) && s.c.arm9 && !s.c.enable && !s.c.running
    requires Field(val, 0x800_0000, 8) == GX_FIFO && Bit(val, 0x8000_0000) && !Bit(val, 0x200_0000)
    requires Field(val, 1, 0x20_0000) > 0 && Field(val, 0x20_0000, 4) < INVALID && Field(val, 0x80_0000, 4) < INVALID
    ensures var w := Write32(s, val, now);
            OnTrack(Job(Field(val, 1, 0x20_0000), s.c.saddrUser, s.c.daddrUser,
                        SrcStride(w.c), DstStride(w.c), w.c.irq), w)
  {
    hide Field, Bit;
  }

  /** The main result: a finished transfer has copied exactly the words of one
      loop, in ceil(n/112) bursts of at most 112 words, and interrupted once. */
  lemma FinishedTransfer(j: Job, s: State, ops: seq<Op>)
    requires OnTrack(j, s) && forall k :: 0 <= k < |ops| ==> ops[k].Event? || ops[k].Trigger?
    requires !DoAll(s, ops).c.enable
    ensures var r := DoAll(s, ops);
            && r.copied == Words(j.src, j.dst, j.ss, j.ds, j.n)
            && |r.bursts| == (j.n + GX_BURST - 1) / GX_BURST
            && (forall k :: 0 <= k < |r.bursts| ==> r.bursts[k] <= GX_BURST)
            && r.irqs == (if j.irq then 1 else 0) && !r.c.running && !r.freezes
  {
    TransferStaysOnTrack(j, s, ops);
    var b := DoAll(s, ops).bursts;
    assert b != [] ==> b[|b| - 1] == Min(GX_BURST, j.n - GX_BURST * (|b| - 1));
  }

  /** And it does finish: with the FIFO low at each event, one event for every
      burst that is left and one more are enough. */
  lemma {:induction false} DrainedTransferFinishes(j: Job, s: State, ops: seq<Op>)
    requires OnTrack(j, s) && (s.c.enable ==> s.c.dmaCheck)
    requires forall k :: 0 <= k < |ops| ==> ops[k].Event? && ops[k].env.gxSize <= GX_LOW
    requires |ops| > (s.c.wordcount + GX_BURST - 1) / GX_BURST
    ensures !DoAll(s, ops).c.enable
    decreases |ops|
  {
    hide Words, Move, Progress;
    var r := Do(s, ops[0]);
    if s.c.enable { EventKeepsTrack(j, s, ops[0].env); DrainStep(j, s, ops[0].env); }
    if s.c.enable && r.c.enable {
      DrainedTransferFinishes(j, r, ops[1..]);
    } else {
      StaysDone(r, ops[1..]);
    }
  }

  lemma DrainStep(j: Job, s: State, e: Env)
    requires OnTrack(j, s) && s.c.enable && s.c.dmaCheck && e.gxSize <= GX_LOW
    ensures var r := Exec(s, e).c;
            r.enable ==> r.dmaCheck && s.c.wordcount > 0 && r.wordcount == s.c.wordcount - Min(GX_BURST, s.c.wordcount)
  {
    hide Words;
    CountDown(s.c.wordcount, Min(GX_BURST, s.c.wordcount));
  }

  lemma {:induction false} StaysDone(s: State, ops: seq<Op>)
    requires !s.c.enable && forall k :: 0 <= k < |ops| ==> ops[k].Event?
    ensures !DoAll(s, ops).c.enable
    decreases |ops|
  {
    if ops != [] { StaysDone(Do(s, ops[0]), ops[1..]); }
  }
}
