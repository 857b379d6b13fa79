/**
 The IPC FIFOs between the CPUs (source/FIFO.cpp): two 16-word rings, each seen
 through the send flags of its owner's control register and the receive flags of
 the other's.  CPU 0 is ARM9, CPU 1 ARM7.
 */
module IpcFifo {

  const DEPTH := 16

  // IPCFIFOCNT bits (source/registers.h)
  const SENDEMPTY: bv16 := 0x0001
  const SENDFULL: bv16 := 0x0002
  const SENDIRQEN: bv16 := 0x0004
  const SENDCLEAR: bv16 := 0x0008
  const RECVEMPTY: bv16 := 0x0100
  const RECVFULL: bv16 := 0x0200
  const RECVIRQEN: bv16 := 0x0400
  const FIFOERROR: bv16 := 0x4000
  const FIFOENABLE: bv16 := 0x8000
  const WRITEABLE: bv16 := 0x8404

  /** One ring; the words it holds start at `head`. */
  datatype Ring = Ring(buf: seq<int>, head: nat, tail: nat, size: nat)

  /** The place `k` words after `head`, around the ring. */
  function Slot(head: nat, k: nat): nat { if head + k < DEPTH then head + k else head + k - DEPTH }

  predicate RingOk(r: Ring) {
    |r.buf| == DEPTH && r.head < DEPTH && r.size <= DEPTH && r.tail == Slot(r.head, r.size)
  }

  /** The queue a ring stands for. */
  function Contents(r: Ring): (q: seq<int>)
    requires RingOk(r)
    ensures |q| == r.size
  {
    seq(r.size, k requires 0 <= k < r.size => r.buf[Slot(r.head, k)])
  }

  function Put(r: Ring, v: int): Ring
    requires r.tail < |r.buf|
  {
    Ring(r.buf[r.tail := v], r.head, if r.tail + 1 > 15 then 0 else r.tail + 1, r.size + 1)
  }

  function Take(r: Ring): Ring
    requires r.size > 0
  {
    Ring(r.buf, if r.head + 1 > 15 then 0 else r.head + 1, r.tail, r.size - 1)
  }

  lemma PutAppends(r: Ring, v: int)
    requires RingOk(r) && r.size < DEPTH
    ensures RingOk(Put(r, v)) && Contents(Put(r, v)) == Contents(r) + [v]
  {
    assert forall k :: 0 <= k < r.size ==> Slot(r.head, k) != r.tail;
  }

  lemma TakeDropsFirst(r: Ring)
    requires RingOk(r) && r.size > 0
    ensures RingOk(Take(r)) && [r.buf[r.head]] + Contents(Take(r)) == Contents(r)
  {
    assert forall k :: 0 <= k < r.size - 1 ==> Slot(Take(r).head, k) == Slot(r.head, k + 1);
  }

  // ------------------------------------------------------- the two sides

  /** Interrupts raised: for which CPU, and whether by a word arriving or by a
      queue running empty. */
  datatype Irq = NotEmpty(cpu: int) | Empty(cpu: int)

  /** Ring `p` carries what CPU `p` sends. */
  datatype Ipc = Ipc(rings: seq<Ring>, cnt: seq<bv16>, irqs: seq<Irq>)

  predicate Shaped(s: Ipc) { |s.rings| == 2 && |s.cnt| == 2 && RingOk(s.rings[0]) && RingOk(s.rings[1]) }

  /** The flags of both registers tell the truth about ring `p`. */
  predicate FlagsOk(s: Ipc, p: nat)
    requires Shaped(s) && p < 2
  {
    var n, mine, theirs := s.rings[p].size, s.cnt[p], s.cnt[1 - p];
    && (mine & SENDEMPTY != 0 <==> n == 0) && (mine & SENDFULL != 0 <==> n == DEPTH)
    && (theirs & RECVEMPTY != 0 <==> n == 0) && (theirs & RECVFULL != 0 <==> n == DEPTH)
  }

  predicate Consistent(s: Ipc) { Shaped(s) && FlagsOk(s, 0) && FlagsOk(s, 1) }

  predicate Error(s: Ipc, p: nat)
    requires |s.cnt| == 2 && p < 2
  {
    s.cnt[p] & FIFOERROR != 0
  }

  predicate Enabled(s: Ipc, p: nat)
    requires |s.cnt| == 2 && p < 2
  {
    s.cnt[p] & FIFOENABLE != 0
  }

  /** IPC_FIFOinit for both CPUs. */
  function Init(): Ipc {
    var ring := Ring(seq(DEPTH, _ => 0), 0, 0, 0);
    Ipc([ring, ring], [0x0101, 0x0101], [])
  }

  /** The two registers, given CPU `p`'s and the other's. */
  function Both(p: nat, mine: bv16, theirs: bv16): (r: seq<bv16>)
    ensures |r| == 2
  {
    if p == 0 then [mine, theirs] else [theirs, mine]
  }

  /** The send flags of a ring's owner after a transfer, which also clears the
      owner's error bit; a ring is never both full and empty. */
  function SendFlags(cnt: bv16, full: bool, empty: bool): bv16 {
    var clear := cnt & 0xBFFC;
    if full then clear | SENDFULL else if empty then clear | SENDEMPTY else clear
  }

  /** The receive flags of the other side. */
  function RecvFlags(cnt: bv16, full: bool, empty: bool): bv16 {
    var clear := cnt & 0xBCFF;
    if full then clear | RECVFULL else if empty then clear | RECVEMPTY else clear
  }

  /** IPC_FIFOsend */
  function Send(s: Ipc, p: nat, v: int): Ipc
    requires Shaped(s) && p < 2
  {
    if s.cnt[p] & FIFOENABLE == 0 then s
    else if s.rings[p].size > 15 then s.(cnt := s.cnt[p := s.cnt[p] | FIFOERROR])
    else
      var ring := Put(s.rings[p], v);
      var full := ring.size > 15;
      var mine := SendFlags(s.cnt[p], full, false);
      var theirs := RecvFlags(s.cnt[1 - p], full, false);
      Ipc(s.rings[p := ring], Both(p, mine, theirs),
          s.irqs + if theirs & RECVIRQEN != 0 then [NotEmpty(1 - p)] else [])
  }

  /** What IPC_FIFOrecv returns. */
  function Received(s: Ipc, p: nat): int
    requires Shaped(s) && p < 2
  {
    var ring := s.rings[1 - p];
    if s.cnt[p] & FIFOENABLE == 0 || ring.size == 0 then 0 else ring.buf[ring.head]
  }

  /** IPC_FIFOrecv */
  function Recv(s: Ipc, p: nat): Ipc
    requires Shaped(s) && p < 2
  {
    if s.cnt[p] & FIFOENABLE == 0 then s
    else if s.rings[1 - p].size == 0 then s.(cnt := s.cnt[p := s.cnt[p] | FIFOERROR])
    else
      var ring := Take(s.rings[1 - p]);
      var empty := ring.size == 0;
      var mine := RecvFlags(s.cnt[p], false, empty);
      var theirs := SendFlags(s.cnt[1 - p], false, empty);
      Ipc(s.rings[1 - p := ring], Both(p, mine, theirs),
          s.irqs + if empty && theirs & SENDIRQEN != 0 then [Empty(1 - p)] else [])
  }

  /** The register of the CPU that writes `val` to it, and that of the other. */
  function Controlled(cnt: bv16, val: bv16): bv16 {
    var acked := if val & FIFOERROR != 0 then cnt & !FIFOERROR else cnt;
    var mine := if val & SENDCLEAR != 0 then (acked | SENDEMPTY) & !SENDFULL else acked;
    (mine & !WRITEABLE) | (val & WRITEABLE)
  }

  function Informed(cnt: bv16, val: bv16): bv16 {
    if val & SENDCLEAR != 0 then (cnt | RECVEMPTY) & !RECVFULL else cnt
  }

  /** IPC_FIFOcnt */
  function Control(s: Ipc, p: nat, val: bv16): Ipc
    requires Shaped(s) && p < 2
  {
    var clear := val & SENDCLEAR != 0;
    var reg, theirs := Controlled(s.cnt[p], val), Informed(s.cnt[1 - p], val);
    Ipc(if clear then s.rings[p := s.rings[p].(head := 0, tail := 0, size := 0)] else s.rings,
        Both(p, reg, theirs),
        s.irqs + (if reg & SENDIRQEN != 0 && reg & SENDEMPTY != 0 then [Empty(p)] else [])
               + (if reg & RECVIRQEN != 0 && reg & RECVEMPTY == 0 then [NotEmpty(p)] else []))
  }

  // --------------------------------------------------- one operation each

  lemma SendBits(cnt: bv16, full: bool, empty: bool)
    requires !(full && empty)
    ensures var c := SendFlags(cnt, full, empty);
            && (c & SENDEMPTY != 0 <==> empty) && (c & SENDFULL != 0 <==> full) && c & FIFOERROR == 0
            && c & RECVEMPTY == cnt & RECVEMPTY && c & RECVFULL == cnt & RECVFULL
  {
  }

  lemma RecvBits(cnt: bv16, full: bool, empty: bool)
    requires !(full && empty)
    ensures var c := RecvFlags(cnt, full, empty);
            && (c & RECVEMPTY != 0 <==> empty) && (c & RECVFULL != 0 <==> full) && c & FIFOERROR == 0
            && c & SENDEMPTY == cnt & SENDEMPTY && c & SENDFULL == cnt & SENDFULL
  {
  }

  lemma ErrorBits(cnt: bv16)
    ensures var c := cnt | FIFOERROR;
            && c & RECVEMPTY == cnt & RECVEMPTY && c & RECVFULL == cnt & RECVFULL
            && c & SENDEMPTY == cnt & SENDEMPTY && c & SENDFULL == cnt & SENDFULL
  {
  }

  lemma SendIsAppend(s: Ipc, p: nat, v: int)
    requires Consistent(s) && p < 2
    ensures var r := Send(s, p, v);
            && Consistent(r) && r.rings[1 - p] == s.rings[1 - p]
            && Contents(r.rings[p]) ==
                 if Enabled(s, p) && s.rings[p].size < DEPTH then Contents(s.rings[p]) + [v] else Contents(s.rings[p])
  {
    hide SendFlags, RecvFlags, Contents, Slot;
    ErrorBits(s.cnt[p]);
    if s.rings[p].size < DEPTH {
      PutAppends(s.rings[p], v);
      SendBits(s.cnt[p], s.rings[p].size + 1 > 15, false);
      RecvBits(s.cnt[1 - p], s.rings[p].size + 1 > 15, false);
    }
  }

  lemma RecvIsPop(s: Ipc, p: nat)
    requires Consistent(s) && p < 2
    ensures var r := Recv(s, p); var q := Contents(s.rings[1 - p]);
            && Consistent(r) && r.rings[p] == s.rings[p]
            && (if Enabled(s, p) && q != [] then Contents(r.rings[1 - p]) == q[1..] && Received(s, p) == q[0]
                else Contents(r.rings[1 - p]) == q && Received(s, p) == 0)
  {
    hide SendFlags, RecvFlags, Contents, Slot;
    ErrorBits(s.cnt[p]);
    if s.rings[1 - p].size > 0 {
      TakeDropsFirst(s.rings[1 - p]);
      RecvBits(s.cnt[p], false, s.rings[1 - p].size == 1);
      SendBits(s.cnt[1 - p], false, s.rings[1 - p].size == 1);
    }
  }

  lemma ControlKeepsQueues(s: Ipc, p: nat, val: bv16)
    requires Consistent(s) && p < 2
    ensures var r := Control(s, p, val);
            && Consistent(r) && r.rings[1 - p] == s.rings[1 - p]
            && Contents(r.rings[p]) == if val & SENDCLEAR != 0 then [] else Contents(s.rings[p])
  {
  }

  /** A send into a full queue and a receive from an empty one change nothing
      but the caller's error bit. */
  lemma FailureOnlySetsError(s: Ipc, p: nat, v: int)
    requires Consistent(s) && p < 2 && Enabled(s, p)
    ensures s.rings[p].size == DEPTH ==> Send(s, p, v) == s.(cnt := s.cnt[p := s.cnt[p] | FIFOERROR])
    ensures s.rings[1 - p].size == 0 ==> Recv(s, p) == s.(cnt := s.cnt[p := s.cnt[p] | FIFOERROR])
  {
  }

  /** But every transfer that succeeds clears the error bits of both CPUs. */
  lemma SuccessClearsErrors(s: Ipc, p: nat, v: int)
    requires Consistent(s) && p < 2 && Enabled(s, p)
    ensures s.rings[p].size < DEPTH ==> !Error(Send(s, p, v), 0) && !Error(Send(s, p, v), 1)
    ensures s.rings[1 - p].size > 0 ==> !Error(Recv(s, p), 0) && !Error(Recv(s, p), 1)
  {
  }

  // ------------------------------------------------ the registers, bit by bit

  /** Bits 0 and 1 tell a CPU whether its own queue is empty or full, bits 8 and 9 the same
      of the queue it receives from; bit 14 is its error and bit 15 enables it. */
  lemma RegisterBits(s: Ipc, p: nat)
    requires Consistent(s) && p < 2
    ensures var mine, theirs := Contents(s.rings[p]), Contents(s.rings[1 - p]);
            && (s.cnt[p] & 0x0001 != 0 <==> mine == []) && (s.cnt[p] & 0x0002 != 0 <==> |mine| == 16)
            && (s.cnt[p] & 0x0100 != 0 <==> theirs == []) && (s.cnt[p] & 0x0200 != 0 <==> |theirs| == 16)
            && (Error(s, p) <==> s.cnt[p] & 0x4000 != 0) && (Enabled(s, p) <==> s.cnt[p] & 0x8000 != 0)
  {
  }

  /** A control write stores the enable bits of the two interrupts and of the unit, clears
      the error if told to, and with bit 3 empties the CPU's own queue; everything else in
      its register stays, and the other CPU's register follows the queue. */
  lemma ControlBits(s: Ipc, p: nat, val: bv16)
    requires Shaped(s) && p < 2
    ensures var r := Control(s, p, val);
            && r.cnt[p] & 0x8404 == val & 0x8404 && r.cnt[p] & 0x3BF8 == s.cnt[p] & 0x3BF8
            && r.cnt[p] & 0x4000 == (if val & 0x4000 != 0 then 0 else s.cnt[p] & 0x4000)
            && r.cnt[p] & 0x0003 == (if val & 0x0008 != 0 then 0x0001 else s.cnt[p] & 0x0003)
            && r.cnt[1 - p] & 0xFCFF == s.cnt[1 - p] & 0xFCFF
            && r.cnt[1 - p] & 0x0300 == (if val & 0x0008 != 0 then 0x0100 else s.cnt[1 - p] & 0x0300)
  {
    hide Control, Controlled, Informed;
    ControlRegisters(s, p, val);
    StoredBits(s.cnt[p], val);
    KeptBits(s.cnt[p], val);
    InformedBits(s.cnt[1 - p], val);
  }

  lemma ControlRegisters(s: Ipc, p: nat, val: bv16)
    requires Shaped(s) && p < 2
    ensures var r := Control(s, p, val);
            |r.cnt| == 2 && r.cnt[p] == Controlled(s.cnt[p], val) && r.cnt[1 - p] == Informed(s.cnt[1 - p], val)
  {
    hide Controlled, Informed;
  }

  lemma StoredBits(cnt: bv16, val: bv16)
    ensures Controlled(cnt, val) & 0x8404 == val & 0x8404
    ensures Controlled(cnt, val) & 0x0003 == if val & 0x0008 != 0 then 0x0001 else cnt & 0x0003
  {
  }

  lemma KeptBits(cnt: bv16, val: bv16)
    ensures Controlled(cnt, val) & 0x3BF8 == cnt & 0x3BF8
    ensures Controlled(cnt, val) & 0x4000 == if val & 0x4000 != 0 then 0 else cnt & 0x4000
  {
  }

  lemma InformedBits(cnt: bv16, val: bv16)
    ensures Informed(cnt, val) & 0xFCFF == cnt & 0xFCFF
    ensures Informed(cnt, val) & 0x0300 == if val & 0x0008 != 0 then 0x0100 else cnt & 0x0300
  {
  }

  /** A control write interrupts the CPU at once if bit 2 is set and its queue is empty, and
      if bit 10 is set and the other queue is not. */
  lemma ControlInterrupts(s: Ipc, p: nat, val: bv16)
    requires Consistent(s) && p < 2
    ensures var r := Control(s, p, val);
            r.irqs == s.irqs + (if val & 0x0004 != 0 && r.rings[p].size == 0 then [Empty(p)] else [])
                             + (if val & 0x0400 != 0 && s.rings[1 - p].size > 0 then [NotEmpty(p)] else [])
  {
    ControlRegisters(s, p, val);
    ControlKeepsQueues(s, p, val);
    hide Controlled, Informed, Contents;
    StoredBits(s.cnt[p], val);
    Masked(Controlled(s.cnt[p], val), val);
  }

  lemma Masked(reg: bv16, val: bv16)
    requires reg & 0x8404 == val & 0x8404
    ensures (reg & SENDIRQEN != 0 <==> val & 0x0004 != 0) && (reg & RECVIRQEN != 0 <==> val & 0x0400 != 0)
  {
  }

  /** A word sent interrupts the receiver if its bit 10 is set, the last word received the
      sender if its bit 2 is; nothing else interrupts. */
  lemma TransferInterrupts(s: Ipc, p: nat, v: int)
    requires Consistent(s) && p < 2
    ensures var sent := s.cnt[p] & 0x8000 != 0 && s.rings[p].size < 16;
            Send(s, p, v).irqs == s.irqs + if sent && s.cnt[1 - p] & 0x0400 != 0 then [NotEmpty(1 - p)] else []
    ensures var last := s.cnt[p] & 0x8000 != 0 && s.rings[1 - p].size == 1;
            Recv(s, p).irqs == s.irqs + if last && s.cnt[1 - p] & 0x0004 != 0 then [Empty(1 - p)] else []
  {
    FlagsKeepEnables(s.cnt[1 - p]);
  }

  lemma FlagsKeepEnables(cnt: bv16)
    ensures forall full: bool, empty: bool :: RecvFlags(cnt, full, empty) & RECVIRQEN != 0 <==> cnt & 0x0400 != 0
    ensures forall full: bool, empty: bool :: SendFlags(cnt, full, empty) & SENDIRQEN != 0 <==> cnt & 0x0004 != 0
  {
  }

  // --------------------------------------------------------- whole runs

  datatype Op = OpSend(cpu: nat, val: int) | OpRecv(cpu: nat) | OpControl(cpu: nat, cnt: bv16)

  /** A run with its history: per CPU, what it managed to send since its queue
      was last cleared, and what the other side received of that. */
  datatype Run = Run(s: Ipc, sent: seq<seq<int>>, got: seq<seq<int>>)

  function Step(r: Run, op: Op): Run
    requires Shaped(r.s) && |r.sent| == 2 && |r.got| == 2
  {
    var p := op.cpu;
    if p >= 2 then r
    else
      match op
      case OpSend(_, v) =>
        Run(Send(r.s, p, v),
            if Enabled(r.s, p) && r.s.rings[p].size < DEPTH then r.sent[p := r.sent[p] + [v]] else r.sent, r.got)
      case OpRecv(_) =>
        Run(Recv(r.s, p), r.sent,
            if Enabled(r.s, p) && r.s.rings[1 - p].size > 0 then r.got[1 - p := r.got[1 - p] + [Received(r.s, p)]]
              else r.got)
      case OpControl(_, c) =>
        if c & SENDCLEAR != 0 then Run(Control(r.s, p, c), r.sent[p := []], r.got[p := []])
        else Run(Control(r.s, p, c), r.sent, r.got)
  }

  /** Flags are true, and what was sent is what was received followed by what is
      still queued: each ring is a FIFO. */
  predicate Faithful(r: Run) {
    && Consistent(r.s) && |r.sent| == 2 && |r.got| == 2
    && r.sent[0] == r.got[0] + Contents(r.s.rings[0]) && r.sent[1] == r.got[1] + Contents(r.s.rings[1])
  }

  lemma StepIsFaithful(r: Run, op: Op)
    requires Faithful(r)
    ensures Faithful(Step(r, op))
  {
    hide FlagsOk, Send, Recv, Control, Contents;
    var p := op.cpu;
    if p < 2 {
      match op {
        case OpSend(_, v) => SendIsAppend(r.s, p, v);
        case OpRecv(_) => RecvIsPop(r.s, p);
        case OpControl(_, c) => ControlKeepsQueues(r.s, p, c);
      }
    }
  }

  function RunAll(r: Run, ops: seq<Op>): Run
    requires Faithful(r)
    decreases |ops|
  {
    if ops == [] then r else StepIsFaithful(r, ops[0]); RunAll(Step(r, ops[0]), ops[1..])
  }

  /** From reset, under any interleaving of both CPUs' operations. */
  lemma {:induction false} RunsAreFaithful(r: Run, ops: seq<Op>)
    requires Faithful(r)
    ensures Faithful(RunAll(r, ops))
    decreases |ops|
  {
    if ops != [] {
      StepIsFaithful(r, ops[0]);
      RunsAreFaithful(Step(r, ops[0]), ops[1..]);
    }
  }

  lemma ResetIsFaithful()
    ensures Faithful(Run(Init(), [[], []], [[], []]))
  {
  }
}
