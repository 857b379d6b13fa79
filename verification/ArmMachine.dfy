/**
 The ARM core as the source updates it: register fields saved, loaded and swapped in
 place.
 */
module ArmMachine {
  import opened ArmBanks

  /** armcpu_t, as far as modes go; `banks` holds R13, R14 and SPSR of each group. */
  class ArmCpu {
    const r: array<Word>
    const high: array<Word>
    const banks: array<Bank>
    var cpsr: Status
    var spsr: Status
    var next: Word
    var waitIrq: bool

    ghost predicate Valid()
      reads this, r, high, banks
    {
      r.Length == 16 && high.Length == 5 && banks.Length == GROUPS && r != high && 0 <= cpsr.mode < 0x20
    }

    ghost function State(): Core
      reads this, r, high, banks
    {
      Core(r[..], high[..], banks[..], cpsr, spsr, next, waitIrq)
    }

    constructor (status: Status)
      requires 0 <= status.mode < 0x20
      ensures Valid() && fresh(r) && fresh(high) && fresh(banks)
    {
      r := new Word[16](_ => 0);
      high := new Word[5](_ => 0);
      banks := new Bank[GROUPS](_ => Bank(0, 0, status));
      cpsr, spsr, next, waitIrq := status, status, 0, false;
    }

    /** The five SWAPs of R8 to R12 with their FIQ counterparts. */
    method SwapHighRegisters()
      requires Valid()
      modifies r, high
      ensures Valid() && State() == SwapHigh(old(State()))
    {
      for k := 0 to 5
        invariant forall j :: 0 <= j < 16 ==> r[j] == if 8 <= j < 8 + k then old(high[j - 8]) else old(r[j])
        invariant forall j :: 0 <= j < 5 ==> high[j] == if j < k then old(r[8 + j]) else old(high[j])
      {
        r[8 + k], high[k] := high[k], r[8 + k];
      }
      ghost var c := old(State());
      assert r[..] == c.r[..8] + c.high + c.r[13..];
      assert high[..] == c.r[8..13];
    }

    method LeaveMode()
      requires Valid()
      modifies r, high, banks
      ensures Valid() && State() == Leave(old(State()))
    {
      var g := Group(cpsr.mode);
      if g == NO_GROUP { return; }
      var r13, r14 := r[13], r[14];
      if cpsr.mode == FIQ { SwapHighRegisters(); }
      banks[g] := Bank(r13, r14, if g == 0 then banks[0].spsr else spsr);
    }

    method EnterMode(mode: int)
      requires Valid() && 0 <= mode < 0x100
      modifies r, high, `spsr, `cpsr
      ensures Valid() && State() == Enter(old(State()), mode)
    {
      var g := Group(mode);
      if mode == FIQ { SwapHighRegisters(); }
      if g != NO_GROUP {
        r[13] := banks[g].r13;
        r[14] := banks[g].r14;
        if g != 0 { spsr := banks[g].spsr; }
      }
      cpsr := cpsr.(mode := mode % 0x20);
    }

    /** armcpu_switchMode: the old mode is returned, for the way back. */
    method SwitchMode(mode: int) returns (oldMode: int)
      requires Valid() && 0 <= mode < 0x100
      modifies this, r, high, banks
      ensures Valid() && State() == Switch(old(State()), mode) && oldMode == old(cpsr.mode)
    {
      hide Leave, Enter;
      oldMode := cpsr.mode;
      LeaveMode();
      EnterMode(mode);
    }

    /** armcpu_irqException */
    method IrqException(instruct: Word, vector: Word)
      requires Valid()
      modifies this, r, high, banks
      ensures Valid() && State() == EnterIrq(old(State()), instruct, vector)
    {
      hide Switch;
      var tmp := cpsr;
      var _ := SwitchMode(IRQ);
      ghost var e := State();
      r[14] := (instruct + 4) % 0x1_0000_0000;
      spsr := tmp;
      cpsr := cpsr.(t := false, i := true);
      next := (vector + 0x18) % 0x1_0000_0000;
      waitIrq := false;
      assert r[..] == e.r[14 := (instruct + 4) % 0x1_0000_0000];
    }

    /** armcpu_exception */
    method RaiseException(number: int, vector: Word)
      requires Valid() && Exception(number)
      modifies this, r, high, banks
      ensures Valid() && State() == EnterException(old(State()), number, vector)
    {
      hide Switch;
      var tmp := cpsr;
      var _ := SwitchMode(ModeOf(number));
      SwitchKeepsShared(old(State()), ModeOf(number));
      ghost var e := State();
      r[14] := next;
      spsr := tmp;
      cpsr := cpsr.(t := false, i := true);
      r[15] := (vector + number) % 0x1_0000_0000;
      assert r[..] == e.r[14 := next][15 := (vector + number) % 0x1_0000_0000];
      next := r[15];
    }
  }
}
