/**
 The IPC FIFOs as the source writes them: ring buffers and control registers
 changed in place, proved against the functions in IpcFifo.
 */
module IpcMachine {
  import opened IpcFifo

  class Fifo {
    const buf: array<int>
    var head: nat
    var tail: nat
    var size: nat

    constructor ()
      ensures fresh(buf) && Value() == Ring(seq(DEPTH, _ => 0), 0, 0, 0)
    {
      buf := new int[DEPTH](_ => 0);
      head, tail, size := 0, 0, 0;
    }

    ghost function Value(): Ring
      reads this, buf
    {
      Ring(buf[..], head, tail, size)
    }

    method Put(v: int)
      requires RingOk(Value()) && size < DEPTH
      modifies this, buf
      ensures Value() == IpcFifo.Put(old(Value()), v)
    {
      buf[tail] := v;
      tail := tail + 1;
      size := size + 1;
      if tail > 15 { tail := 0; }
    }

    method Take() returns (v: int)
      requires RingOk(Value()) && size > 0
      modifies `head, `size
      ensures v == old(Value()).buf[old(head)] && Value() == IpcFifo.Take(old(Value()))
    {
      v := buf[head];
      head := head + 1;
      size := size - 1;
      if head > 15 { head := 0; }
    }
  }

  class IpcUnit {
    const fifo: seq<Fifo>           // what CPU 0 sends, what CPU 1 sends
    var cnt: seq<bv16>              // the two IPCFIFOCNT registers
    ghost var irqs: seq<Irq>

    ghost predicate Wired()
      reads this
    {
      |fifo| == 2 && fifo[0] != fifo[1] && fifo[0].buf != fifo[1].buf && |cnt| == 2
    }

    ghost function State(): Ipc
      requires Wired()
      reads this, fifo, fifo[0].buf, fifo[1].buf
    {
      Ipc([fifo[0].Value(), fifo[1].Value()], cnt, irqs)
    }

    constructor ()
      ensures Wired() && State() == Init() && Faithful(Run(State(), [[], []], [[], []]))
    {
      var a := new Fifo();
      var b := new Fifo();
      fifo, cnt, irqs := [a, b], [0x0101, 0x0101], [];
      new;
      ResetIsFaithful();
    }

    method Interrupt(irq: Irq)
      modifies `irqs
      ensures irqs == old(irqs) + [irq]
    {
      irqs := irqs + [irq];
    }

    /** The register updates of a transfer on the ring of CPU `p`. */
    method SetFlags(p: nat, full: bool, empty: bool)
      requires |cnt| == 2 && p < 2 && !(full && empty)
      modifies `cnt
      ensures cnt == Both(p, SendFlags(old(cnt[p]), full, empty), RecvFlags(old(cnt[1 - p]), full, empty))
    {
      hide SendFlags, RecvFlags;
      var send, recv := Flagged(cnt[p], cnt[1 - p], full, empty);
      cnt := Both(p, send, recv);
    }

    static method Flagged(mine: bv16, theirs: bv16, full: bool, empty: bool) returns (send: bv16, recv: bv16)
      requires !(full && empty)
      ensures send == SendFlags(mine, full, empty) && recv == RecvFlags(theirs, full, empty)
    {
      send, recv := mine & 0xBFFC, theirs & 0xBCFF;
      if full { send, recv := send | SENDFULL, recv | RECVFULL; }
      if empty { send, recv := send | SENDEMPTY, recv | RECVEMPTY; }
    }

    method Send(p: nat, v: int)
      requires Wired() && Shaped(State()) && p < 2
      modifies this, fifo, fifo[0].buf, fifo[1].buf
      ensures Wired() && State() == IpcFifo.Send(old(State()), p, v)
    {
      hide IpcFifo.Put, RingOk, SendFlags, RecvFlags;
      assert fifo[p].Value() == State().rings[p];
      if cnt[p] & FIFOENABLE == 0 { return; }
      if fifo[p].size > 15 {
        cnt := cnt[p := cnt[p] | FIFOERROR];
        return;
      }
      fifo[p].Put(v);
      SetFlags(p, fifo[p].size > 15, false);
      if cnt[1 - p] & RECVIRQEN != 0 { Interrupt(NotEmpty(1 - p)); }
    }

    method Recv(p: nat) returns (v: int)
      requires Wired() && Shaped(State()) && p < 2
      modifies this, fifo
      ensures Wired() && State() == IpcFifo.Recv(old(State()), p) && v == Received(old(State()), p)
    {
      hide IpcFifo.Take, RingOk, SendFlags, RecvFlags;
      v := 0;
      var q := 1 - p;
      assert fifo[q].Value() == State().rings[q];
      if cnt[p] & FIFOENABLE == 0 { return; }
      if fifo[q].size == 0 {
        cnt := cnt[p := cnt[p] | FIFOERROR];
        return;
      }
      v := fifo[q].Take();
      var empty := fifo[q].size == 0;
      assert State().rings == old(State()).rings[q := IpcFifo.Take(old(State()).rings[q])];
      SetFlags(q, false, empty);
      if empty && cnt[q] & SENDIRQEN != 0 { Interrupt(Empty(q)); }
    }

    method Control(p: nat, val: bv16)
      requires Wired() && Shaped(State()) && p < 2
      modifies this, fifo
      ensures Wired() && State() == IpcFifo.Control(old(State()), p, val)
    {
      hide Controlled, Informed;
      RegistersAre(cnt[p], cnt[1 - p], val);
      var mine, theirs := cnt[p], cnt[1 - p];
      if val & FIFOERROR != 0 { mine := mine & !FIFOERROR; }
      if val & SENDCLEAR != 0 {
        fifo[p].head, fifo[p].tail, fifo[p].size := 0, 0, 0;
        mine, theirs := (mine | SENDEMPTY) & !SENDFULL, (theirs | RECVEMPTY) & !RECVFULL;
      }
      mine := (mine & !WRITEABLE) | (val & WRITEABLE);
      if mine & SENDIRQEN != 0 && mine & SENDEMPTY != 0 { Interrupt(Empty(p)); }
      if mine & RECVIRQEN != 0 && mine & RECVEMPTY == 0 { Interrupt(NotEmpty(p)); }
      cnt := Both(p, mine, theirs);
    }
  }

  lemma RegistersAre(mine: bv16, theirs: bv16, val: bv16)
    ensures var acked := if val & FIFOERROR != 0 then mine & !FIFOERROR else mine;
            var clear := val & SENDCLEAR != 0;
            var a := if clear then (acked | SENDEMPTY) & !SENDFULL else acked;
            && Controlled(mine, val) == (a & !WRITEABLE) | (val & WRITEABLE)
            && Informed(theirs, val) == if clear then (theirs | RECVEMPTY) & !RECVFULL else theirs
  {
  }
}
