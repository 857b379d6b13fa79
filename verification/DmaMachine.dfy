/**
 The DMA controller as the source writes it: one object a channel, whose methods
 update its registers and its bit of the bus one after the other, proved against
 the functions in Dma.
 */
module DmaMachine {
  import opened Dma

  class DmaController {
    var c: Channel                  // the object's registers and flags
    var freezes: bool               // this channel's bit of nds.freezeBus
    ghost var copied: seq<Pair>
    ghost var bursts: seq<nat>
    ghost var irqs: nat

    ghost function Value(): State
      reads this
    {
      State(c, freezes, copied, bursts, irqs)
    }

    constructor (arm9: bool, chan: nat)
      ensures c.arm9 == arm9 && c.chan == chan && !c.enable && !c.running
      ensures Alive(Value()) && Value() == State(c, false, [], [], 0)
    {
      c := Channel(arm9, chan, false, false, false, false, IMMEDIATE, false, 0, 0, false, false, false, 0, 0, 0, 0, 0,
        0, 0);
      freezes, copied, bursts, irqs := false, [], [], 0;
    }

    method DoSchedule(now: nat)
      modifies `c
      ensures c == Scheduled(old(c), now)
    {
      c := c.(dmaCheck := true);
      c := c.(nextEvent := now);
    }

    method DoPause()
      modifies `c
      ensures c == old(c).(triggered := false, paused := true)
    {
      c := c.(triggered := false);
      c := c.(paused := true);
    }

    method DoStop()
      modifies `c, `irqs
      ensures Value() == Dma.DoStop(old(Value()))
    {
      c := c.(running := false);
      if !c.repeats { c := c.(enable := false); }
      if c.irq { irqs := irqs + 1; }
    }

    method TryTrigger(mode: nat, now: nat)
      modifies this
      ensures Value() == Dma.TryTrigger(old(Value()), mode, now)
    {
      if c.startmode != mode { return; }
      if !c.enable { return; }
      if c.running && !c.paused { return; }
      c := c.(triggered := true);
      DoSchedule(now);
    }

    /** How many words to copy, and the switch-off at the end of a displayed frame. */
    method PlanCopy(e: Env) returns (todo: nat)
      modifies `c
      ensures todo == Todo(c, e)
      ensures c == old(c).(enable := old(c).enable && !(old(c).startmode == MEM_DISPLAY && e.line == 191))
    {
      todo := c.wordcount;
      if c.arm9 && todo == 0 { todo := 0x200000; }
      if c.startmode == MEM_DISPLAY {
        todo := 128;
        if e.line == 191 { c := c.(enable := false); }
      }
      if c.startmode == CARD { todo := e.cardBytes / (if c.wide then 4 else 2); }
      if c.startmode == GX_FIFO && todo > GX_BURST { todo := GX_BURST; }
    }

    /** The unsigned 32-bit increments: a step back is a large step forward. */
    method Increments() returns (srcinc: Addr, dstinc: Addr)
      ensures srcinc == Move(0, SrcStride(c)) && dstinc == Move(0, DstStride(c))
    {
      var size := if c.wide then 4 else 2;
      srcinc, dstinc := size, size;
      if c.dar == DECREMENT { dstinc := WORD - size; } else if c.dar == FIXED { dstinc := 0; }
      if c.sar == DECREMENT { srcinc := WORD - size; } else if c.sar >= FIXED { srcinc := 0; }
    }

    /** The copy loop, with 32-bit wrap-around. */
    method CopyLoop(from: Addr, to: Addr, srcinc: Addr, dstinc: Addr, ghost ss: int, ghost ds: int, todo: nat)
      returns (src: Addr, dst: Addr, ghost pairs: seq<Pair>)
      requires srcinc == Move(0, ss) && dstinc == Move(0, ds)
      ensures src == Move(from, todo * ss) && dst == Move(to, todo * ds)
      ensures pairs == Words(from, to, ss, ds, todo)
    {
      src, dst, pairs := from, to, [];
      var i := todo;
      while i > 0
        invariant 0 <= i <= todo
        invariant src == Move(from, (todo - i) * ss) && dst == Move(to, (todo - i) * ds)
        invariant pairs == Words(from, to, ss, ds, todo - i)
      {
        StepIsMove(from, todo - i, ss);
        StepIsMove(to, todo - i, ds);
        pairs := pairs + [Pair(src, dst)];
        dst := (dst + dstinc) % WORD;
        src := (src + srcinc) % WORD;
        i := i - 1;
      }
    }

    /** The copy itself; on ARM9 it freezes the bus. */
    method MoveWords(todo: nat) returns (src: Addr, dst: Addr)
      modifies `freezes, `copied, `bursts
      ensures src == Move(c.saddr, todo * SrcStride(c)) && dst == Move(c.daddr, todo * DstStride(c))
      ensures copied == old(copied) + Words(c.saddr, c.daddr, SrcStride(c), DstStride(c), todo)
      ensures bursts == old(bursts) + [todo] && freezes == (old(freezes) || c.arm9)
    {
      hide Words, Move, SrcStride, DstStride;
      var srcinc, dstinc := Increments();
      ghost var pairs;
      src, dst, pairs := CopyLoop(c.saddr, c.daddr, srcinc, dstinc, SrcStride(c), DstStride(c), todo);
      copied, bursts := copied + pairs, bursts + [todo];
      if c.arm9 { freezes := true; }
    }

    method DoCopy(e: Env)
      modifies this
      ensures Value() == Dma.DoCopy(old(Value()), e)
    {
      hide Words, Move, Todo, SrcStride, DstStride, Landed;
      var todo := PlanCopy(e);
      var src, dst := MoveWords(todo);
      Land(e, todo, src, dst);
    }

    /** Schedule the end of the copy and write the addresses and the count back. */
    method Land(e: Env, todo: nat, src: Addr, dst: Addr)
      modifies `c
      ensures c == Landed(old(c), e, todo, src, dst)
    {
      hide Rest;
      c := c.(dmaCheck := true, nextEvent := e.now + e.elapsed, saddr := src,
              daddr := if c.dar != INVALID then dst else c.daddr, wordcount := Rest(c, todo));
    }

    method Exec(e: Env)
      modifies this
      ensures Value() == Dma.Exec(old(Value()), e)
    {
      hide Dma.DoCopy, Dma.DoStop, StartMode;
      if c.arm9 { freezes := false; }
      c := c.(dmaCheck := false);
      if c.running {
        if c.startmode == GX_FIFO && c.wordcount > 0 {
          DoPause();
        } else {
          DoStop();
          return;
        }
      }
      if c.enable {
        var mode := LatchedMode();
        c := c.(startmode := mode);
        if mode == IMMEDIATE {
          c := c.(triggered := true);
        } else if mode == GX_FIFO && e.gxSize <= GX_LOW {
          c := c.(triggered := true);
        }
        if c.triggered {
          c := c.(running := true, paused := false);
          DoCopy(e);
        }
      }
    }

    method LatchedMode() returns (mode: nat)
      ensures mode == StartMode(c)
    {
      if c.arm9 { return c.modeField; }
      match c.modeField / 2 {
        case 0 => mode := IMMEDIATE;
        case 1 => mode := 1;
        case 2 => mode := CARD;
        case _ =>
          mode := WIFI7;
          if c.chan == 1 || c.chan == 3 { mode := GBA_SLOT7; }
      }
    }

    method Write32(val: Addr, now: nat)
      modifies this
      ensures Value() == Dma.Write32(old(Value()), val, now)
    {
      hide Latched, Reloaded;
      var wasEnable := c.enable;
      LatchControl(val);
      Reload(wasEnable);
      var doNotStart := c.startmode != IMMEDIATE && c.startmode != GX_FIFO && wasEnable;
      if !doNotStart { DoSchedule(now); }
    }

    /** Triggers and addresses when a channel is enabled. */
    method Reload(wasEnable: bool)
      modifies `c
      ensures c == Reloaded(old(c), wasEnable)
    {
      if c.enable {
        if !wasEnable { c := c.(triggered := false); }
        c := c.(saddr := c.saddrUser, daddr := c.daddrUser);
      }
    }

    /** The fields of the control word. */
    method LatchControl(val: Addr)
      modifies `c
      ensures c == Latched(old(c), val)
    {
      c := c.(wordcount := Field(val, 1, 0x20_0000), dar := Field(val, 0x20_0000, 4), sar := Field(val, 0x80_0000, 4));
      c := c.(repeats := Bit(val, 0x200_0000), wide := Bit(val, 0x400_0000), modeField := Field(val, 0x800_0000, 8));
      if !c.arm9 { c := c.(modeField := c.modeField - c.modeField % 2); }
      c := c.(irq := Bit(val, 0x4000_0000), enable := Bit(val, 0x8000_0000));
    }
  }

  lemma StepIsMove(a: Addr, k: nat, d: int)
    ensures (Move(a, k * d) + Move(0, d)) % WORD == Move(a, (k + 1) * d)
  {
    assert (k + 1) * d == k * d + d;
    AddWraps(a + k * d, d);
  }

  lemma AddWraps(x: int, y: int)
    ensures (x % WORD + y % WORD) % WORD == (x + y) % WORD
  {
    assert x == x / WORD * WORD + x % WORD && y == y / WORD * WORD + y % WORD;
  }
}
