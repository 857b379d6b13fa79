/**
 Which registers the modes of the ARM share and which they keep apart, by the numbers of
 the modes, over whole runs of the core.
 */
module ArmSeparation {
  import opened ArmBanks

  /** User, FIQ, IRQ, supervisor, abort, undefined and system mode. */
  predicate IsMode(mode: int) { mode in {0x10, 0x11, 0x12, 0x13, 0x17, 0x1B, 0x1F} }

  /** Two modes with stack pointers, links and saved status of their own: any two but user
      and system mode. */
  predicate Apart(a: int, b: int) {
    IsMode(a) && IsMode(b) && a != b && !(a in {0x10, 0x1F} && b in {0x10, 0x1F})
  }

  predicate HasSpsr(mode: int) { IsMode(mode) && mode != 0x10 && mode != 0x1F }

  lemma ModesAre(mode: int)
    ensures Mode(mode) <==> IsMode(mode)
    ensures Mode(mode) ==> (Group(mode) != 0 <==> HasSpsr(mode))
  {
  }

  lemma GroupsAre(a: int, b: int)
    requires Apart(a, b)
    ensures Group(a) != Group(b)
  {
  }

  // -------------------------------------------------------- what is seen

  /** R13, R14 and SPSR as mode `a` would see them. */
  function R13In(c: Core, a: int): Word
    requires Sized(c) && IsMode(a)
  {
    Step(c, SetMode(a)).r[13]
  }

  function R14In(c: Core, a: int): Word
    requires Sized(c) && IsMode(a)
  {
    Step(c, SetMode(a)).r[14]
  }

  function SpsrIn(c: Core, a: int): Status
    requires Sized(c) && IsMode(a)
  {
    Step(c, SetMode(a)).spsr
  }

  lemma SeenInFile(c: Core, a: int)
    requires Sized(c) && IsMode(a)
    ensures R13In(c, a) == Abs(c).r13[Group(a)] && R14In(c, a) == Abs(c).r14[Group(a)]
    ensures HasSpsr(a) ==> SpsrIn(c, a) == Abs(c).spsr[Group(a)]
  {
    ModesAre(a);
    SwitchKeepsFile(c, a);
    SwitchKeepsShared(c, a);
    var d := Switch(c, a);
    CoreShowsMode(d, 13);
    CoreShowsMode(d, 14);
    if HasSpsr(a) { SpsrInFile(d); }
    hide Switch, Abs, Group;
  }

  // ---------------------------------------------------- one step elsewhere

  lemma StepInFile(c: Core, op: Op)
    requires Sized(c) && IsMode(c.cpsr.mode) && Legal(op)
    ensures IsMode(Step(c, op).cpsr.mode)
    ensures var f, h := FileStep(Abs(c), op), Abs(Step(c, op));
            h.r13 == f.r13 && h.r14 == f.r14 && h.spsr == f.spsr && f.cpsr.mode == Step(c, op).cpsr.mode
  {
    ModesAre(c.cpsr.mode);
    StepRefines(c, op);
    ModesAre(Step(c, op).cpsr.mode);
    match op {
      case Raise(number, vector) => ExceptionRefines(c, number, vector);
      case _ =>
    }
    hide Abs, Switch, Take, TakeIrq, Write, WriteSpsr, EnterIrq, EnterException, Group;
  }

  lemma FileStepElsewhere(f: File, op: Op, a: int)
    requires Shaped(f) && Legal(op) && Apart(f.cpsr.mode, a) && Apart(FileStep(f, op).cpsr.mode, a)
    ensures var h, g := FileStep(f, op), Group(a);
            h.r13[g] == f.r13[g] && h.r14[g] == f.r14[g] && h.spsr[g] == f.spsr[g]
  {
    GroupsAre(f.cpsr.mode, a);
    GroupsAre(FileStep(f, op).cpsr.mode, a);
  }

  lemma StepElsewhere(c: Core, op: Op, a: int)
    requires Sized(c) && Legal(op) && Apart(c.cpsr.mode, a) && Apart(Step(c, op).cpsr.mode, a)
    ensures var d := Step(c, op);
            R13In(d, a) == R13In(c, a) && R14In(d, a) == R14In(c, a) && (HasSpsr(a) ==> SpsrIn(d, a) == SpsrIn(c, a))
  {
    hide Step, FileStep, Abs, Group, R13In, R14In, SpsrIn;
    ModesAre(c.cpsr.mode);
    StepInFile(c, op);
    FileStepElsewhere(Abs(c), op, a);
    SeenInFile(c, a);
    SeenInFile(Step(c, op), a);
  }

  // ----------------------------------------------------------- whole runs

  /** The run visits only modes that are apart from `a`. */
  ghost predicate Elsewhere(c: Core, ops: seq<Op>, a: int)
    requires Sized(c) && forall op :: op in ops ==> Legal(op)
  {
    forall k :: 0 <= k <= |ops| ==> Apart(Run(c, ops[..k]).cpsr.mode, a)
  }

  /** Whatever runs in other modes, exceptions included, leaves what a mode sees of R13,
      R14 and SPSR. */
  lemma {:induction false} OthersLeaveAlone(c: Core, ops: seq<Op>, a: int)
    requires Sized(c) && IsMode(a) && (forall op :: op in ops ==> Legal(op)) && Elsewhere(c, ops, a)
    ensures var d := Run(c, ops);
            R13In(d, a) == R13In(c, a) && R14In(d, a) == R14In(c, a) && (HasSpsr(a) ==> SpsrIn(d, a) == SpsrIn(c, a))
    decreases |ops|
  {
    hide Step, R13In, R14In, SpsrIn;
    if ops != [] {
      var front := ops[..|ops| - 1];
      forall k | 0 <= k <= |front| ensures Apart(Run(c, front[..k]).cpsr.mode, a) { assert front[..k] == ops[..k]; }
      OthersLeaveAlone(c, front, a);
      assert ops[..|ops|] == ops;
      StepElsewhere(Run(c, front), ops[|ops| - 1], a);
    }
  }

  /** So a mode that is left and entered again finds its stack pointer, its link and its
      saved status as it left them. */
  lemma {:induction false} ModeFindsItsOwn(c: Core, b: int, ops: seq<Op>)
    requires Sized(c) && Apart(b, c.cpsr.mode) && (forall op :: op in ops ==> Legal(op))
    requires Elsewhere(Step(c, SetMode(b)), ops, c.cpsr.mode)
    ensures var a, d := c.cpsr.mode, Run(Step(c, SetMode(b)), ops);
            && Step(d, SetMode(a)).r[13] == c.r[13] && Step(d, SetMode(a)).r[14] == c.r[14]
            && (HasSpsr(a) ==> Step(d, SetMode(a)).spsr == c.spsr)
  {
    var a, e := c.cpsr.mode, Switch(c, b);
    ModesAre(a);
    ModesAre(b);
    OthersLeaveAlone(e, ops, a);
    ThereAndBack(c, b);
    hide Switch, Run, Elsewhere, Group;
  }

  // ------------------------------------------------- what the modes share

  /** A switch moves R8 to R12 exactly if FIQ mode is left or entered, and R13 and R14 at
      most if the modes are apart; R0 to R7 and R15 stay. */
  lemma SwitchShares(c: Core, b: int)
    requires Sized(c) && IsMode(c.cpsr.mode) && IsMode(b)
    ensures var a, d := c.cpsr.mode, Step(c, SetMode(b));
            && d.cpsr == c.cpsr.(mode := b)
            && (forall n: nat :: n < 8 || n == 15 ==> n < 16 && d.r[n] == c.r[n])
            && (forall n: nat :: 8 <= n < 13 ==>
                  d.r[n] == if (a == 0x11) == (b == 0x11) then c.r[n] else c.high[n - 8])
            && (!Apart(a, b) ==> d.r == c.r)
  {
    if Group(c.cpsr.mode) == Group(b) { SameGroup(c, b); }
    ModesAre(b);
    ModesAre(c.cpsr.mode);
    SwitchKeepsShared(c, b);
    SharedRegisters(c);
    var d := Switch(c, b);
    SharedRegisters(d);
    hide Switch, Abs, Group;
    forall n: nat | n < 8 ensures d.r[n] == c.r[n] { assert d.r[..8][n] == c.r[..8][n]; }
    forall n: nat | 8 <= n < 13
      ensures d.r[n] == if (c.cpsr.mode == 0x11) == (b == 0x11) then c.r[n] else c.high[n - 8]
    {
      assert d.r[8..13][n - 8] == d.r[n] && c.r[8..13][n - 8] == c.r[n];
    }
  }

  lemma SameGroup(c: Core, b: int)
    requires Sized(c) && IsMode(c.cpsr.mode) && IsMode(b) && Group(c.cpsr.mode) == Group(b)
    ensures Switch(c, b).r == c.r
  {
  }

  /** R8 to R12 of FIQ mode, and those of all others, survive each other's writes. */
  lemma FastRegistersApart(c: Core, b: int, n: nat, v: Word)
    requires Sized(c) && IsMode(c.cpsr.mode) && IsMode(b) && 8 <= n < 13
    ensures var a := c.cpsr.mode;
            var d := Step(Step(Step(c, SetMode(b)), SetReg(n, v)), SetMode(a));
            d.r[n] == if (a == 0x11) == (b == 0x11) then v else c.r[n]
  {
    hide Switch, Apart;
    SwitchShares(c, b);
    var e := Switch(c, b);
    HighAfter(c, b);
    SwitchShares(e.(r := e.r[n := v]), c.cpsr.mode);
  }

  lemma HighAfter(c: Core, b: int)
    requires Sized(c) && IsMode(c.cpsr.mode) && IsMode(b)
    ensures Switch(c, b).high == if (c.cpsr.mode == 0x11) == (b == 0x11) then c.high else c.r[8..13]
  {
    SwitchKeepsShared(c, b);
    SharedRegisters(c);
    SharedRegisters(Switch(c, b));
    hide Switch, Abs;
  }

  // ------------------------------------------------------------ exceptions

  /** The mode that each exception vector enters. */
  lemma ExceptionsEnter(c: Core, number: int, vector: Word)
    requires Sized(c) && IsMode(c.cpsr.mode) && Exception(number)
    ensures var d := Step(c, Raise(number, vector));
            && d.cpsr.mode == (match number case 0x04 => 0x1B case 0x0C => 0x17 case 0x10 => 0x17 case 0x18 => 0x12
                               case 0x1C => 0x11 case _ => 0x13)
            && d.r[14] == c.next && d.spsr == c.cpsr && d.r[15] == d.next == (vector + number) % 0x1_0000_0000
            && d.cpsr.i && !d.cpsr.t && d.cpsr.f == c.cpsr.f
  {
    SwitchKeepsShared(c, ModeOf(number));
    hide Switch;
  }

  /** An interrupt enters mode 0x12 with the return address in R14 and the old status in
      SPSR, and ends the wait. */
  lemma InterruptsEnter(c: Core, instruct: Word, vector: Word)
    requires Sized(c) && IsMode(c.cpsr.mode)
    ensures var d := Step(c, Irq(instruct, vector));
            && d.cpsr == c.cpsr.(mode := 0x12, t := false, i := true) && d.spsr == c.cpsr && !d.waitIrq
            && d.r[14] == (instruct + 4) % 0x1_0000_0000 && d.next == (vector + 0x18) % 0x1_0000_0000
  {
    SwitchKeepsShared(c, 0x12);
    hide Switch;
  }
}
