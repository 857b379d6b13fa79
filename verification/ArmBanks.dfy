/**
 Banked registers and exception entry of the ARM cores (source/armcpu.cpp
 armcpu_switchMode, armcpu_exception and armcpu_irqException).  The core keeps the
 registers of the current mode in R0 to R15 and moves the banked ones in and out on
 every mode switch; the Architecture Reference Manual (DDI 0100, section A2.4) has a
 fixed file of registers and lets the mode select among them.
 */
module ArmBanks {

  const USR := 0x10
  const FIQ := 0x11
  const IRQ := 0x12
  const SVC := 0x13
  const ABT := 0x17
  const UND := 0x1B
  const SYS := 0x1F

  const GROUPS := 6
  const NO_GROUP := -1

  type Word = w: int | 0 <= w < 0x1_0000_0000

  /** CPSR and SPSR: the mode, the T, I and F bits and everything else. */
  datatype Status = Status(mode: int, t: bool, i: bool, f: bool, rest: int)

  /** R13, R14 and SPSR as one mode keeps them; the SPSR of group 0 is never used. */
  datatype Bank = Bank(r13: Word, r14: Word, spsr: Status)

  /** The modes that share R13 and R14: User and System do. */
  function Group(mode: int): (g: int)
    ensures g == NO_GROUP || 0 <= g < GROUPS
  {
    if mode == USR || mode == SYS then 0
    else if mode == FIQ then 1 else if mode == IRQ then 2 else if mode == SVC then 3
    else if mode == ABT then 4 else if mode == UND then 5 else NO_GROUP
  }

  predicate Mode(mode: int) { Group(mode) != NO_GROUP }

  // ------------------------------------------ the core

  /** The fields of armcpu_t; `high` is R8_fiq to R12_fiq. */
  datatype Core = Core(r: seq<Word>, high: seq<Word>, banks: seq<Bank>, cpsr: Status, spsr: Status, next: Word,
        waitIrq: bool)

  predicate Sized(c: Core) { |c.r| == 16 && |c.high| == 5 && |c.banks| == GROUPS && 0 <= c.cpsr.mode < 0x20 }

  function SwapHigh(c: Core): (d: Core)
    requires Sized(c)
    ensures Sized(d)
  {
    c.(r := c.r[..8] + c.high + c.r[13..], high := c.r[8..13])
  }

  /** The first switch of armcpu_switchMode: leaving a mode. */
  function Leave(c: Core): (d: Core)
    requires Sized(c)
    ensures Sized(d)
  {
    var g := Group(c.cpsr.mode);
    if g == NO_GROUP then c
    else
      var d := if c.cpsr.mode == FIQ then SwapHigh(c) else c;
      var bank := Bank(c.r[13], c.r[14], if g == 0 then c.banks[0].spsr else c.spsr);
      d.(banks := c.banks[g := bank])
  }

  /** The second: entering one.  User and System have no SPSR, and keep the last. */
  function Enter(c: Core, mode: int): (d: Core)
    requires Sized(c) && 0 <= mode < 0x100
    ensures Sized(d)
  {
    var g := Group(mode);
    var d := if mode == FIQ then SwapHigh(c) else c;
    var e := if g == NO_GROUP then d
             else d.(r := d.r[13 := d.banks[g].r13][14 := d.banks[g].r14],
                     spsr := if g == 0 then d.spsr else d.banks[g].spsr);
    e.(cpsr := c.cpsr.(mode := mode % 0x20))
  }

  /** armcpu_switchMode */
  function Switch(c: Core, mode: int): (d: Core)
    requires Sized(c) && 0 <= mode < 0x100
    ensures Sized(d)
  {
    Enter(Leave(c), mode)
  }

  /** armcpu_irqException, up to the prefetch. */
  function EnterIrq(c: Core, instruct: Word, vector: Word): (d: Core)
    requires Sized(c)
    ensures Sized(d)
  {
    var e := Switch(c, IRQ);
    e.(r := e.r[14 := (instruct + 4) % 0x1_0000_0000], spsr := c.cpsr, cpsr := e.cpsr.(t := false, i := true),
       next := (vector + 0x18) % 0x1_0000_0000, waitIrq := false)
  }

  /** The mode of each exception vector. */
  function ModeOf(number: int): (mode: int)
    ensures Mode(mode)
  {
    if number == 0x04 then UND else if number == 0x0C || number == 0x10 then ABT
    else if number == 0x18 then IRQ else if number == 0x1C then FIQ
    else if number == 0x00 || number == 0x08 then SVC else USR
  }

  predicate Exception(number: int) { number in {0x00, 0x04, 0x08, 0x0C, 0x10, 0x18, 0x1C} }

  /** armcpu_exception */
  function EnterException(c: Core, number: int, vector: Word): (d: Core)
    requires Sized(c)
    ensures Sized(d)
  {
    var e := Switch(c, ModeOf(number));
    var pc := (vector + number) % 0x1_0000_0000;
    e.(r := e.r[14 := c.next][15 := pc], spsr := c.cpsr, cpsr := e.cpsr.(t := false, i := true), next := pc)
  }

  // ------------------------------------------ the architecture

  /** The register file: R0 to R7 and R15, two sets of R8 to R12, and R13, R14 and
      SPSR for each group of modes (no SPSR for group 0).  `next` is the address of
      the next instruction. */
  datatype File = File(cpsr: Status, low: seq<Word>, pc: Word, user: seq<Word>, fast: seq<Word>,
                       r13: seq<Word>, r14: seq<Word>, spsr: seq<Status>, next: Word)

  predicate Shaped(f: File) {
    && |f.low| == 8 && |f.user| == |f.fast| == 5 && |f.r13| == |f.r14| == GROUPS && |f.spsr| == GROUPS
    && Mode(f.cpsr.mode)
  }

  /** Register `n` as the current mode sees it. */
  function Read(f: File, n: nat): Word
    requires Shaped(f) && n < 16
  {
    if n < 8 then f.low[n]
    else if n < 13 then (if f.cpsr.mode == FIQ then f.fast[n - 8] else f.user[n - 8])
    else if n == 13 then f.r13[Group(f.cpsr.mode)]
    else if n == 14 then f.r14[Group(f.cpsr.mode)]
    else f.pc
  }

  function Write(f: File, n: nat, v: Word): (h: File)
    requires Shaped(f) && n < 16
    ensures Shaped(h)
  {
    if n < 8 then f.(low := f.low[n := v])
    else if n < 13 then
      (if f.cpsr.mode == FIQ then f.(fast := f.fast[n - 8 := v]) else f.(user := f.user[n - 8 := v]))
    else if n == 13 then f.(r13 := f.r13[Group(f.cpsr.mode) := v])
    else if n == 14 then f.(r14 := f.r14[Group(f.cpsr.mode) := v])
    else f.(pc := v)
  }

  /** Switching modes changes no register. */
  function InMode(f: File, mode: int): File { f.(cpsr := f.cpsr.(mode := mode)) }

  /** SPSR of the current mode; User and System have none. */
  function WriteSpsr(f: File, v: Status): (h: File)
    requires Shaped(f)
    ensures Shaped(h)
  {
    var g := Group(f.cpsr.mode);
    if g == 0 then f else f.(spsr := f.spsr[g := v])
  }

  /** Exception entry (section A2.6): R14 and SPSR of the new mode, the status and
      the vector. */
  function Trap(f: File, mode: int, masksF: bool, link: Word, vector: Word): (h: File)
    requires Shaped(f) && Mode(mode) && Group(mode) != 0
    ensures Shaped(h)
  {
    var g := Group(mode);
    f.(r14 := f.r14[g := link], spsr := f.spsr[g := f.cpsr],
       cpsr := f.cpsr.(mode := mode, t := false, i := true, f := f.cpsr.f || masksF), next := vector)
  }

  /** Reset and FIQ disable fast interrupts. */
  predicate MasksF(number: int) { number == 0x00 || number == 0x1C }

  function TakeIrq(f: File, instruct: Word, vector: Word): (h: File)
    requires Shaped(f)
    ensures Shaped(h)
  {
    Trap(f, IRQ, false, (instruct + 4) % 0x1_0000_0000, (vector + 0x18) % 0x1_0000_0000)
  }

  function Take(f: File, number: int, vector: Word): (h: File)
    requires Shaped(f) && Exception(number)
    ensures Shaped(h)
  {
    var pc := (vector + number) % 0x1_0000_0000;
    Write(Trap(f, ModeOf(number), MasksF(number), f.next, pc), 15, pc)
  }

  // ------------------------------------------ the core implements it

  /** The registers a mode has, wherever the core holds them. */
  function R13Of(c: Core, g: int): Word
    requires Sized(c) && 0 <= g < GROUPS
  {
    if g == Group(c.cpsr.mode) then c.r[13] else c.banks[g].r13
  }

  function R14Of(c: Core, g: int): Word
    requires Sized(c) && 0 <= g < GROUPS
  {
    if g == Group(c.cpsr.mode) then c.r[14] else c.banks[g].r14
  }

  function SpsrOf(c: Core, g: int): Status
    requires Sized(c) && 0 <= g < GROUPS
  {
    if g == Group(c.cpsr.mode) && g != 0 then c.spsr else c.banks[g].spsr
  }

  /** The file a core stands for. */
  function Abs(c: Core): (f: File)
    requires Sized(c)
    ensures |f.low| == 8 && |f.user| == |f.fast| == 5 && |f.r13| == |f.r14| == |f.spsr| == GROUPS
    ensures f.cpsr == c.cpsr && f.next == c.next
  {
    var fast := c.cpsr.mode == FIQ;
    File(c.cpsr, c.r[..8], c.r[15], if fast then c.high else c.r[8..13], if fast then c.r[8..13] else c.high,
         [R13Of(c, 0), R13Of(c, 1), R13Of(c, 2), R13Of(c, 3), R13Of(c, 4), R13Of(c, 5)],
         [R14Of(c, 0), R14Of(c, 1), R14Of(c, 2), R14Of(c, 3), R14Of(c, 4), R14Of(c, 5)],
         [SpsrOf(c, 0), SpsrOf(c, 1), SpsrOf(c, 2), SpsrOf(c, 3), SpsrOf(c, 4), SpsrOf(c, 5)],
         c.next)
  }

  /** R0 to R15 of the core are what the mode selects. */
  lemma CoreShowsMode(c: Core, n: nat)
    requires Sized(c) && Mode(c.cpsr.mode) && n < 16
    ensures Read(Abs(c), n) == c.r[n]
  {
  }

  /** A switch between any two of the 32 modes loses and mixes no register. */
  lemma SwitchKeepsFile(c: Core, mode: int)
    requires Sized(c) && 0 <= mode < 0x20
    ensures Abs(Switch(c, mode)) == InMode(Abs(c), mode)
  {
    SwitchKeepsShared(c, mode);
    SwitchKeepsGroup(c, mode, 0);
    SwitchKeepsGroup(c, mode, 1);
    SwitchKeepsGroup(c, mode, 2);
    SwitchKeepsGroup(c, mode, 3);
    SwitchKeepsGroup(c, mode, 4);
    SwitchKeepsGroup(c, mode, 5);
    hide Switch, R13Of, R14Of, SpsrOf;
  }

  lemma SwitchKeepsGroup(c: Core, mode: int, g: int)
    requires Sized(c) && 0 <= mode < 0x100 && 0 <= g < GROUPS
    requires mode < 0x20 || !Mode(mode % 0x20)
    ensures var d := Switch(c, mode);
            R13Of(d, g) == R13Of(c, g) && R14Of(d, g) == R14Of(c, g) && SpsrOf(d, g) == SpsrOf(c, g)
  {
  }

  lemma SwitchKeepsShared(c: Core, mode: int)
    requires Sized(c) && 0 <= mode < 0x20
    ensures var d, f, h := Switch(c, mode), Abs(c), Abs(Switch(c, mode));
            && d.cpsr == c.cpsr.(mode := mode) && d.next == c.next && d.waitIrq == c.waitIrq
            && h.low == f.low && h.pc == f.pc && h.user == f.user && h.fast == f.fast
  {
    hide Abs, Leave, Enter;
    SharedRegisters(c);
    SharedRegisters(Switch(c, mode));
    LeaveShared(c);
    EnterShared(Leave(c), mode);
  }

  lemma LeaveShared(c: Core)
    requires Sized(c)
    ensures var l := Leave(c);
            && l.cpsr == c.cpsr && l.next == c.next && l.waitIrq == c.waitIrq
            && l.r[..8] == c.r[..8] && l.r[15] == c.r[15]
            && l.r[8..13] == (if c.cpsr.mode == FIQ then c.high else c.r[8..13])
            && l.high == (if c.cpsr.mode == FIQ then c.r[8..13] else c.high)
  {
    assert Group(FIQ) == 1;
    hide Group;
  }

  lemma SharedRegisters(c: Core)
    requires Sized(c)
    ensures var f := Abs(c);
            && f.low == c.r[..8] && f.pc == c.r[15]
            && f.user == (if c.cpsr.mode == FIQ then c.high else c.r[8..13])
            && f.fast == (if c.cpsr.mode == FIQ then c.r[8..13] else c.high)
  {
  }

  lemma EnterShared(c: Core, mode: int)
    requires Sized(c) && 0 <= mode < 0x20
    ensures var d := Enter(c, mode);
            && d.cpsr == c.cpsr.(mode := mode) && d.next == c.next && d.waitIrq == c.waitIrq
            && d.r[..8] == c.r[..8] && d.r[15] == c.r[15]
            && d.r[8..13] == (if mode == FIQ then c.high else c.r[8..13])
            && d.high == (if mode == FIQ then c.r[8..13] else c.high)
  {
    hide Group;
  }

  lemma WriteRefines(c: Core, n: nat, v: Word)
    requires Sized(c) && Mode(c.cpsr.mode) && n < 16
    ensures Abs(c.(r := c.r[n := v])) == Write(Abs(c), n, v)
  {
    var d := c.(r := c.r[n := v]);
    assert d.r[..8] == if n < 8 then c.r[..8][n := v] else c.r[..8];
    assert d.r[8..13] == if 8 <= n < 13 then c.r[8..13][n - 8 := v] else c.r[8..13];
  }

  lemma WriteSpsrRefines(c: Core, v: Status)
    requires Sized(c) && Mode(c.cpsr.mode)
    ensures Abs(c.(spsr := v)) == WriteSpsr(Abs(c), v)
  {
  }

  /** The status other than the mode, the wait flag and the address are their own. */
  lemma StatusRefines(c: Core, t: bool, i: bool, f: bool, next: Word, waitIrq: bool)
    requires Sized(c)
    ensures Abs(c.(cpsr := c.cpsr.(t := t, i := i, f := f), next := next, waitIrq := waitIrq))
         == Abs(c).(cpsr := c.cpsr.(t := t, i := i, f := f), next := next)
  {
  }

  /** Entering an interrupt alters one R14 and one SPSR among all banks, and saves
      the interrupted status there. */
  lemma IrqRefines(c: Core, instruct: Word, vector: Word)
    requires Sized(c) && Mode(c.cpsr.mode)
    ensures Abs(EnterIrq(c, instruct, vector)) == TakeIrq(Abs(c), instruct, vector)
    ensures !EnterIrq(c, instruct, vector).waitIrq
  {
    TrapRefines(c, IRQ, (instruct + 4) % 0x1_0000_0000, (vector + 0x18) % 0x1_0000_0000, false);
    hide Abs, Switch;
  }

  /** The other entries do what the architecture asks, up to the F bit, which they
      never set: they meet it exactly when the exception leaves F alone or F was
      set. */
  lemma ExceptionRefines(c: Core, number: int, vector: Word)
    requires Sized(c) && Mode(c.cpsr.mode) && Exception(number)
    ensures var taken := Take(Abs(c), number, vector);
            && Abs(EnterException(c, number, vector)) == taken.(cpsr := taken.cpsr.(f := c.cpsr.f))
            && (Abs(EnterException(c, number, vector)) == taken <==> number !in {0x00, 0x1C} || c.cpsr.f)
  {
    var pc := (vector + number) % 0x1_0000_0000;
    var w := Switch(c, ModeOf(number)).waitIrq;
    var e := Trapped(c, ModeOf(number), c.next, pc, w);
    TrapRefines(c, ModeOf(number), c.next, pc, w);
    WriteRefines(e, 15, pc);
    hide Abs, Switch;
  }

  /** What both entries do. */
  function Trapped(c: Core, mode: int, link: Word, vector: Word, waitIrq: bool): (d: Core)
    requires Sized(c) && Mode(mode)
    ensures Sized(d)
  {
    var e := Switch(c, mode);
    e.(r := e.r[14 := link], spsr := c.cpsr, cpsr := e.cpsr.(t := false, i := true), next := vector, waitIrq := waitIrq)
  }

  lemma TrapRefines(c: Core, mode: int, link: Word, vector: Word, waitIrq: bool)
    requires Sized(c) && Mode(c.cpsr.mode) && Mode(mode) && Group(mode) != 0
    ensures Abs(Trapped(c, mode, link, vector, waitIrq)) == Trap(Abs(c), mode, false, link, vector)
    ensures Trapped(c, mode, link, vector, waitIrq).cpsr.mode == mode
  {
    SwitchKeepsFile(c, mode);
    var e := Switch(c, mode);
    SwitchKeepsShared(c, mode);
    WriteRefines(e, 14, link);
    var f := e.(r := e.r[14 := link]);
    WriteSpsrRefines(f, c.cpsr);
    var h := f.(spsr := c.cpsr);
    StatusRefines(h, false, true, h.cpsr.f, vector, waitIrq);
    hide Abs, Switch;
  }

  // ------------------------------------------ runs

  datatype Op =
    | SetMode(mode: int)
    | SetReg(n: nat, v: Word)
    | SetSpsr(status: Status)
    | SetMasks(i: bool, f: bool)
    | SetNext(addr: Word)
    | Irq(instruct: Word, vector: Word)
    | Raise(number: int, vector: Word)

  predicate Legal(op: Op) {
    match op
    case SetMode(mode) => Mode(mode)
    case SetReg(n, _) => n < 16
    case Raise(number, _) => Exception(number)
    case _ => true
  }

  function Step(c: Core, op: Op): (d: Core)
    requires Sized(c) && Legal(op)
    ensures Sized(d)
  {
    match op
    case SetMode(mode) => Switch(c, mode)
    case SetReg(n, v) => c.(r := c.r[n := v])
    case SetSpsr(status) => c.(spsr := status)
    case SetMasks(i, f) => c.(cpsr := c.cpsr.(i := i, f := f))
    case SetNext(addr) => c.(next := addr)
    case Irq(instruct, vector) => EnterIrq(c, instruct, vector)
    case Raise(number, vector) => EnterException(c, number, vector)
  }

  function FileStep(f: File, op: Op): (h: File)
    requires Shaped(f) && Legal(op)
    ensures Shaped(h)
  {
    match op
    case SetMode(mode) => InMode(f, mode)
    case SetReg(n, v) => Write(f, n, v)
    case SetSpsr(status) => WriteSpsr(f, status)
    case SetMasks(i, fiq) => f.(cpsr := f.cpsr.(i := i, f := fiq))
    case SetNext(addr) => f.(next := addr)
    case Irq(instruct, vector) => TakeIrq(f, instruct, vector)
    case Raise(number, vector) => Take(f, number, vector)
  }

  /** The operations in which the core leaves out the F bit. */
  predicate LosesF(c: Core, op: Op) { op.Raise? && MasksF(op.number) && !c.cpsr.f }

  lemma StepRefines(c: Core, op: Op)
    requires Sized(c) && Mode(c.cpsr.mode) && Legal(op)
    ensures Mode(Step(c, op).cpsr.mode)
    ensures Abs(Step(c, op)) == FileStep(Abs(c), op) <==> !LosesF(c, op)
    ensures Alike(Abs(Step(c, op)), FileStep(Abs(c), op))
  {
    hide Abs, Switch, Write, Take, TakeIrq, WriteSpsr, EnterIrq, EnterException;
    match op
    case SetMode(mode) => SwitchKeepsFile(c, mode);
    case SetReg(n, v) => WriteRefines(c, n, v);
    case SetSpsr(status) => WriteSpsrRefines(c, status);
    case SetMasks(i, f) => StatusRefines(c, c.cpsr.t, i, f, c.next, c.waitIrq);
    case SetNext(addr) => StatusRefines(c, c.cpsr.t, c.cpsr.i, c.cpsr.f, addr, c.waitIrq);
    case Irq(instruct, vector) => IrqRefines(c, instruct, vector);
    case Raise(number, vector) =>
      ExceptionRefines(c, number, vector);
  }

  predicate SameButF(a: Status, b: Status) { a.(f := false) == b.(f := false) }

  /** Files that differ in F bits at most. */
  predicate Alike(f: File, h: File) {
    && f.low == h.low && f.pc == h.pc && f.user == h.user && f.fast == h.fast && f.r13 == h.r13 && f.r14 == h.r14
    && f.next == h.next && SameButF(f.cpsr, h.cpsr)
    && |f.spsr| == |h.spsr| && forall g :: 0 <= g < |f.spsr| ==> SameButF(f.spsr[g], h.spsr[g])
  }

  /** No other bit depends on them. */
  lemma StepKeepsAlike(f: File, h: File, op: Op)
    requires Shaped(f) && Shaped(h) && Alike(f, h) && Legal(op)
    ensures Alike(FileStep(f, op), FileStep(h, op))
  {
    hide Group;
  }

  function Run(c: Core, ops: seq<Op>): (d: Core)
    requires Sized(c) && forall op :: op in ops ==> Legal(op)
    ensures Sized(d)
  {
    if ops == [] then c else Step(Run(c, ops[..|ops| - 1]), ops[|ops| - 1])
  }

  function FileRun(f: File, ops: seq<Op>): (h: File)
    requires Shaped(f) && forall op :: op in ops ==> Legal(op)
    ensures Shaped(h)
  {
    if ops == [] then f else FileStep(FileRun(f, ops[..|ops| - 1]), ops[|ops| - 1])
  }

  /** Over any run every register read is the one of the architecture's file, and
      so is the whole file but for F bits; these too without resets and FIQs. */
  lemma {:induction false} RunRefines(c: Core, ops: seq<Op>)
    requires Sized(c) && Mode(c.cpsr.mode) && forall op :: op in ops ==> Legal(op)
    ensures Mode(Run(c, ops).cpsr.mode) && Alike(Abs(Run(c, ops)), FileRun(Abs(c), ops))
    ensures (forall op :: op in ops ==> !(op.Raise? && MasksF(op.number))) ==> Abs(Run(c, ops)) == FileRun(Abs(c), ops)
    ensures forall n: nat :: n < 16 ==> Run(c, ops).r[n] == Read(FileRun(Abs(c), ops), n)
  {
    hide Abs, Step, FileStep, Read, Alike;
    if ops != [] {
      var last, op := Run(c, ops[..|ops| - 1]), ops[|ops| - 1];
      RunRefines(c, ops[..|ops| - 1]);
      StepRefines(last, op);
      var f := FileRun(Abs(c), ops[..|ops| - 1]);
      StepKeepsAlike(Abs(last), f, op);
      AlikeTransitive(Abs(Step(last, op)), FileStep(Abs(last), op), FileStep(f, op));
    } else {
      AlikeItself(Abs(c));
    }
    forall n: nat | n < 16 ensures Run(c, ops).r[n] == Read(FileRun(Abs(c), ops), n) {
      CoreShowsMode(Run(c, ops), n);
      ReadAlike(Abs(Run(c, ops)), FileRun(Abs(c), ops), n);
    }
  }

  lemma ReadAlike(f: File, h: File, n: nat)
    requires Shaped(f) && Shaped(h) && Alike(f, h) && n < 16
    ensures Read(f, n) == Read(h, n)
  {
  }

  lemma AlikeItself(f: File)
    ensures Alike(f, f)
  {
  }

  lemma AlikeTransitive(f: File, g: File, h: File)
    requires Alike(f, g) && Alike(g, h)
    ensures Alike(f, h)
  {
  }

  /** A visit to any mode and back, as the block transfers with the S bit make. */
  lemma ThereAndBack(c: Core, mode: int)
    requires Sized(c) && Mode(c.cpsr.mode) && 0 <= mode < 0x20
    ensures var d := Switch(Switch(c, mode), c.cpsr.mode);
            d.r == c.r && d.cpsr == c.cpsr && (Group(c.cpsr.mode) != 0 ==> d.spsr == c.spsr)
  {
    var e := Switch(c, mode);
    var d := Switch(e, c.cpsr.mode);
    SwitchKeepsShared(c, mode);
    SwitchKeepsShared(e, c.cpsr.mode);
    SwitchKeepsFile(c, mode);
    SwitchKeepsFile(e, c.cpsr.mode);
    hide Abs, Switch, Group, Read;
    if Group(c.cpsr.mode) != 0 {
      SpsrInFile(c);
      SpsrInFile(d);
    }
    forall n: nat | n < 16 ensures d.r[n] == c.r[n] {
      CoreShowsMode(c, n);
      CoreShowsMode(d, n);
    }
  }

  lemma SpsrInFile(c: Core)
    requires Sized(c) && Mode(c.cpsr.mode) && Group(c.cpsr.mode) != 0
    ensures Abs(c).spsr[Group(c.cpsr.mode)] == c.spsr
  {
  }

  // ------------------------------------------ the width of the argument

  predicate KeepsGroups(c: Core, mode: int)
    requires Sized(c) && 0 <= mode < 0x100
  {
    forall g :: 0 <= g < GROUPS ==>
      var d := Switch(c, mode);
      R13Of(d, g) == R13Of(c, g) && R14Of(d, g) == R14Of(c, g) && SpsrOf(d, g) == SpsrOf(c, g)
  }

  /** The argument is 8 bits wide and the mode 5: a value that is a mode only in its
      low bits selects the mode without its registers.  Every other value is safe. */
  lemma BanksSurviveIff(mode: int)
    requires 0 <= mode < 0x100
    ensures (forall c: Core :: Sized(c) && Mode(c.cpsr.mode) ==> KeepsGroups(c, mode))
       <==> mode < 0x20 || !Mode(mode % 0x20)
  {
    hide KeepsGroups, Group, WideWitness;
    if mode < 0x20 || !Mode(mode % 0x20) {
      forall c: Core | Sized(c) && Mode(c.cpsr.mode) ensures KeepsGroups(c, mode) { GroupsKept(c, mode); }
    } else {
      WideLoses(mode);
    }
  }

  lemma GroupsKept(c: Core, mode: int)
    requires Sized(c) && 0 <= mode < 0x100 && (mode < 0x20 || !Mode(mode % 0x20))
    ensures KeepsGroups(c, mode)
  {
    hide Switch, R13Of, R14Of, SpsrOf, Group;
    forall g | 0 <= g < GROUPS
      ensures var d := Switch(c, mode);
              R13Of(d, g) == R13Of(c, g) && R14Of(d, g) == R14Of(c, g) && SpsrOf(d, g) == SpsrOf(c, g)
    {
      SwitchKeepsGroup(c, mode, g);
    }
  }

  lemma WideLoses(mode: int)
    requires 0x20 <= mode < 0x100 && Mode(mode % 0x20)
    ensures var c := WideWitness(mode); Sized(c) && Mode(c.cpsr.mode) && !KeepsGroups(c, mode)
  {
    var c, g := WideWitness(mode), Group(mode % 0x20);
    assert R13Of(Switch(c, mode), g) != R13Of(c, g);
    hide Switch, R13Of, Group;
  }

  function WideWitness(mode: int): Core {
    var status := Status(if mode % 0x20 == IRQ then SVC else IRQ, false, false, false, 0);
    Core(seq(16, _ => 1), seq(5, _ => 1), seq(GROUPS, _ => Bank(0, 0, status)), status, status, 0, false)
  }
}
