/**
 The bank controller as the source writes it: every register write unmaps all
 page tables, applies the nine banks in a fixed order and then mirrors the ARM9
 regions.  Proved: the tables are always those of the registers, whatever was
 written before.
 */
module VramMachine {
  import opened Vram

  /** The tables after the first `n` banks of the order. */
  predicate Arm9Layer(map9: seq<int>, regs: Regs, n: nat)
    requires n <= BANKS
  {
    |map9| == PAGES && forall p :: 0 <= p < PAGES ==> map9[p] == Layered(regs, p, n)
  }

  predicate LcdcLayer(lcdc: seq<int>, regs: Regs, n: nat)
    requires n <= BANKS
  {
    && |lcdc| == LCDC_PAGES
    && forall p :: 0 <= p < LCDC_PAGES ==>
         lcdc[p] == if InLcdc(regs, BankOf(p)) && BankOf(p) in ORDER[..n] then p else UNMAPPED
  }

  function Arm7Layer(regs: Regs, slot: int, n: nat): int {
    if n > 8 && ToArm7(regs, D, slot) then FirstPage(D)
    else if n > 7 && ToArm7(regs, C, slot) then FirstPage(C) else UNMAPPED
  }

  function Stat(regs: Regs, n: nat): int {
    (if n > 7 && Enabled(regs[C]) && Mst(C, regs[C]) == 2 then 1 else 0)
    + (if n > 8 && Enabled(regs[D]) && Mst(D, regs[D]) == 2 then 2 else 0)
  }

  /** MMU_vram_physical */
  function Physical(page: int): int { page * PAGE }

  class VramControl {
    const map9: array<int>          // vram_arm9_map
    const lcdc: array<int>          // vram_lcdc_map
    const map7: array<int>          // vram_arm7_map
    var regs: Regs
    var slots: Slots
    var stat: int                   // ARM7's VRAMSTAT register
    var wramcnt: int

    predicate Shaped()
      reads this
    {
      && map9.Length == PAGES && lcdc.Length == LCDC_PAGES && map7.Length == 2
      && map9 != lcdc && map9 != map7 && lcdc != map7 && slots.Shaped()
    }

    /** The state part way through a refresh. */
    ghost predicate Refreshed(n: nat)
      requires n <= BANKS
      reads this, map9, lcdc, map7
    {
      && Shaped() && Arm9Layer(map9[..], regs, n) && LcdcLayer(lcdc[..], regs, n)
      && (forall k :: 0 <= k < 2 ==> map7[k] == Arm7Layer(regs, k, n))
      && slots == SlotsOf(regs, n) && stat == Stat(regs, n)
    }

    /** The tables are a function of the registers alone. */
    ghost predicate Valid()
      reads this, map9, lcdc, map7
    {
      && Shaped()
      && (forall p :: 0 <= p < PAGES ==> map9[p] == PageAt(regs, p))
      && (forall p :: 0 <= p < LCDC_PAGES ==> lcdc[p] == LcdcAt(regs, p))
      && (forall k :: 0 <= k < 2 ==> map7[k] == Arm7At(regs, k))
      && slots == SlotsOf(regs, BANKS) && stat == Stat(regs, BANKS)
    }

    /** MMU_Reset */
    constructor ()
      ensures Valid() && regs == seq(BANKS, _ => 0) && wramcnt == 0
      ensures fresh(map9) && fresh(lcdc) && fresh(map7)
    {
      map9, lcdc, map7 := new int[PAGES], new int[LCDC_PAGES], new int[2];
      regs, slots, stat, wramcnt := seq(BANKS, _ => 0), NO_SLOTS, 0, 0;
      new;
      UnmapAll();
      forall p | 0 <= p < PAGES ensures PageAt(regs, p) == UNMAPPED { NoClaimantLeavesBlank(regs, Mirror(p), BANKS); }
      ResetHasNoSlots(regs, BANKS);
    }

    /** MMU_LCDmap for ARM9, through the tables; every index stays in bounds. */
    method MapForArm9(addr: nat) returns (m: Mapped)
      requires Valid() && 0x0600_0000 <= addr < 0x0700_0000
      ensures m == Arm9Map(regs, addr)
    {
      var a := addr;
      if a >= 0x068A_4000 { a := 0x0680_0000 + a / 0x8_0000 % 2 * 0x8_0000; }
      var page;
      if a >= 0x0680_0000 { page := lcdc[a / PAGE % 64]; } else { page := map9[a / PAGE % PAGES]; }
      m := if page == UNMAPPED then Unmapped else At(0x0600_0000 + page * PAGE + a % PAGE);
    }

    /** MMU_LCDmap for ARM7. */
    method MapForArm7(addr: nat) returns (m: Mapped)
      requires Valid() && 0x0600_0000 <= addr < 0x0700_0000
      ensures m == Arm7Map(regs, addr)
    {
      var page := map7[addr / 0x2_0000 % 2];
      m := if page == UNMAPPED then Unmapped else At(0x0600_0000 + page * PAGE + addr % 0x2_0000);
    }

    /** MMU_gpu_map: no test for unmapped pages, they lead to the blank memory. */
    method MapForGpu(addr: nat) returns (offset: int)
      requires Valid()
      ensures offset == GpuOffset(regs, addr)
    {
      offset := map9[addr / PAGE % PAGES] * PAGE + addr % PAGE;
    }

    /** MMU_VRAM_unmap_all, and the reset of VRAMSTAT before a refresh. */
    method UnmapAll()
      requires Shaped()
      modifies `slots, `stat, map9, lcdc, map7
      ensures Refreshed(0)
    {
      map7[0], map7[1] := UNMAPPED, UNMAPPED;
      for i := 0 to LCDC_PAGES
        invariant forall p :: 0 <= p < i ==> lcdc[p] == UNMAPPED
        invariant map7[0] == map7[1] == UNMAPPED
      {
        lcdc[i] := UNMAPPED;
      }
      for i := 0 to PAGES
        invariant forall p :: 0 <= p < i ==> map9[p] == UNMAPPED
        invariant forall p :: 0 <= p < LCDC_PAGES ==> lcdc[p] == UNMAPPED
        invariant map7[0] == map7[1] == UNMAPPED
      {
        map9[i] := UNMAPPED;
      }
      slots, stat := NO_SLOTS, 0;
    }

    /** MMU_vram_lcdc */
    method MapLcdc(bank: int)
      requires Shaped() && 0 <= bank < BANKS
      modifies lcdc
      ensures forall p :: 0 <= p < LCDC_PAGES ==>
                lcdc[p] == if FirstPage(bank) <= p < FirstPage(bank) + NumPages(bank) then p else old(lcdc[p])
    {
      for i := 0 to NumPages(bank)
        invariant forall p :: 0 <= p < LCDC_PAGES ==>
                    lcdc[p] == if FirstPage(bank) <= p < FirstPage(bank) + i then p else old(lcdc[p])
      {
        lcdc[FirstPage(bank) + i] := FirstPage(bank) + i;
      }
    }

    /** MMU_vram_arm9 */
    method MapArm9(bank: int, offset: int)
      requires Shaped() && 0 <= bank < BANKS && 0 <= offset <= PAGES - NumPages(bank)
      modifies map9
      ensures forall p :: 0 <= p < PAGES ==>
                map9[p] == if offset <= p < offset + NumPages(bank) then FirstPage(bank) + p - offset else old(map9[p])
    {
      for i := 0 to NumPages(bank)
        invariant forall p :: 0 <= p < PAGES ==>
                    map9[p] == if offset <= p < offset + i then FirstPage(bank) + p - offset else old(map9[p])
      {
        map9[i + offset] := FirstPage(bank) + i;
      }
    }

    /** The page-table part of MMU_VRAMmapRefreshBank, bank by bank. */
    method RefreshArm9(bank: int)
      requires Shaped() && 0 <= bank < BANKS
      modifies map9
      ensures forall p :: 0 <= p < PAGES ==>
                map9[p] == if Claim(regs, bank, p) != UNMAPPED then Claim(regs, bank, p) else old(map9[p])
    {
      var cnt := regs[bank];
      if !Enabled(cnt) { return; }
      var mst, ofs := Mst(bank, cnt), Ofs(cnt);
      if bank < C {
        if mst == 1 { MapArm9(bank, ABG + ofs * 8); }
        if mst == 2 && ofs < 2 { MapArm9(bank, AOBJ + ofs * 8); }
      } else if bank < E {
        if mst == 1 { MapArm9(bank, ABG + ofs * 8); }
        if mst == 4 { MapArm9(bank, if bank == C then BBG else BOBJ); }
      } else if bank == E {
        if mst == 1 { MapArm9(bank, ABG); }
        if mst == 2 { MapArm9(bank, AOBJ); }
      } else if bank < H {
        var pageofs := PageOfs(cnt);
        if mst == 1 {
          MapArm9(bank, ABG + pageofs);
          MapArm9(bank, ABG + pageofs + 2);
        }
        if mst == 2 {
          MapArm9(bank, AOBJ + pageofs);
          MapArm9(bank, AOBJ + pageofs + 2);
        }
      } else if bank == H {
        if mst == 1 {
          MapArm9(bank, BBG);
          MapArm9(bank, BBG + 4);
        }
      } else {
        if mst == 1 {
          MapArm9(bank, BBG + 2);
          MapArm9(bank, BBG + 3);
        }
        if mst == 2 {
          MapArm9(bank, BOBJ);
          MapArm9(bank, BOBJ + 1);
        }
      }
    }

    /** The rest of MMU_VRAMmapRefreshBank: the LCDC and ARM7 tables and the
        texture and palette slots. */
    method RefreshOthers(bank: int)
      requires Shaped() && 0 <= bank < BANKS
      modifies lcdc, map7, `slots, `stat
      ensures slots == SlotsAfter(bank, regs[bank], old(slots))
      ensures forall p :: 0 <= p < LCDC_PAGES ==>
          lcdc[p] == if InLcdc(regs, bank) && BankOf(p) == bank then p else old(lcdc[p])
      ensures forall k :: 0 <= k < 2 ==>
                map7[k] == if (bank == C || bank == D) && ToArm7(regs, bank, k) then FirstPage(bank) else old(map7[k])
      ensures stat == old(stat) + if (bank == C || bank == D) && Enabled(regs[bank]) && Mst(bank, regs[bank]) == 2
                                  then bank - 1 else 0
    {
      var cnt := regs[bank];
      if !Enabled(cnt) { return; }
      if Mst(bank, cnt) == 0 { MapLcdc(bank); }
      if (bank == C || bank == D) && Mst(bank, cnt) == 2 {
        stat := stat + if bank == C then 1 else 2;
        if Ofs(cnt) < 2 { map7[Ofs(cnt)] := FirstPage(bank); }
      }
      RefreshSlots(bank);
    }

    /** The textures and palettes that a bank in use sets. */
    method RefreshSlots(bank: int)
      requires Shaped() && 0 <= bank < BANKS && Enabled(regs[bank])
      modifies `slots
      ensures slots == SlotsAfter(bank, regs[bank], old(slots))
    {
      var cnt := regs[bank];
      var mst, ofs := Mst(bank, cnt), Ofs(cnt);
      var first := FirstPage(bank);
      if bank <= D {
        if mst == 3 { slots := slots.(tex := slots.tex[ofs := Physical(first)]); }
      } else if bank == E {
        match mst {
          case 3 =>
            var p := slots.texPal[0 := Physical(first)][1 := Physical(first + 1)];
            p := p[2 := Physical(first + 2)][3 := Physical(first + 3)];
            slots := slots.(texPal := p);
          case 4 =>
            var p := FourHalves(slots.bgPalA, Physical(first));
            slots := slots.(bgPalA := p);
          case _ =>
        }
      } else if bank <= G {
        match mst {
          case 3 => slots := slots.(texPal := slots.texPal[PageOfs(cnt) := Physical(first)]);
          case 4 =>
            if ofs < 2 {
              var p := slots.bgPalA[ofs * 2 := Physical(first)];
              slots := slots.(bgPalA := p[ofs * 2 + 1 := p[ofs * 2] + HALF]);
            }
          case 5 =>
            var p := TwoHalves(slots.objPalA, Physical(first));
            slots := slots.(objPalA := p);
          case _ =>
        }
      } else if bank == H {
        if mst == 2 {
          var p := FourHalves(slots.bgPalB, Physical(first));
          slots := slots.(bgPalB := p);
        }
      } else {
        if mst == 3 {
          var p := TwoHalves(slots.objPalB, Physical(first));
          slots := slots.(objPalB := p);
        }
      }
    }

    /** The four slots of a BG palette, each 8 KB after the one before. */
    method FourHalves(slot: seq<int>, here: int) returns (p: seq<int>)
      requires |slot| == 4
      ensures p == [here, here + HALF, here + 2 * HALF, here + 3 * HALF]
    {
      p := slot[0 := here];
      p := p[1 := p[0] + HALF];
      p := p[2 := p[1] + HALF];
      p := p[3 := p[2] + HALF];
    }

    /** The two of an OBJ palette, of which the second follows its old self. */
    method TwoHalves(slot: seq<int>, here: int) returns (p: seq<int>)
      requires |slot| == 2
      ensures p == [here, slot[1] + HALF]
    {
      p := slot[0 := here];
      p := p[1 := p[1] + HALF];
    }

    /** MMU_VRAMmapControl for the nine bank registers (the WRAM register is
        `block` 7 of the ten). */
    method MapControl(block: int, val: Byte)
      requires Valid() && 0 <= block < 10
      modifies this, map9, lcdc, map7
      ensures Valid()
      ensures block == 7 ==> regs == old(regs) && wramcnt == val % 4
      ensures block != 7 ==> regs == old(regs)[if block < 7 then block else block - 1 := val] && wramcnt == old(wramcnt)
    {
      if block == 7 {
        wramcnt := val % 4;
        return;
      }
      UnmapAll();
      regs := regs[if block < 7 then block else block - 1 := val];
      RefreshAll();
      MirrorAll();
    }

    method RefreshAll()
      requires Refreshed(0)
      modifies map9, lcdc, map7, `slots, `stat
      ensures Refreshed(BANKS)
    {
      hide Claim, InLcdc, ToArm7, SlotsAfter, BankOf, Mst, Enabled, LcdcLayer, Layered;
      for n := 0 to BANKS
        invariant Refreshed(n)
      {
        ghost var oldLcdc := lcdc[..];
        ghost var old9 := map9[..];
        RefreshArm9(ORDER[n]);
        RefreshOthers(ORDER[n]);
        OrderAt(n);
        Arm9Step(old9, map9[..], regs, n);
        LcdcStep(oldLcdc, lcdc[..], regs, n);
      }
    }

    /** Pads each ARM9 region with copies of its mappable area. */
    method MirrorAll()
      requires Refreshed(BANKS)
      modifies map9
      ensures Valid()
    {
      hide Mirror, Layered, InLcdc, BankOf, ToArm7, SlotsOf, Stat;
      forall p | 0 <= p < LCDC_PAGES ensures BankOf(p) in ORDER[..BANKS] { OrderIsComplete(BankOf(p)); }
      ghost var before := map9[..];
      for t := 0 to 4
        invariant forall p :: 0 <= p < PAGES ==> map9[p] == before[if p < 128 * t then Mirror(p) else p]
      {
        MirrorRegion(t, before);
      }
    }

    method MirrorRegion(t: int, ghost before: seq<int>)
      requires Shaped() && 0 <= t < 4 && |before| == PAGES
      requires forall p :: 0 <= p < PAGES ==> map9[p] == before[if p < 128 * t then Mirror(p) else p]
      modifies map9
      ensures forall p :: 0 <= p < PAGES ==> map9[p] == before[if p < 128 * (t + 1) then Mirror(p) else p]
    {
      hide Mirror;
      var size := RegionSize(t);
      forall p | 128 * t <= p < 128 * t + size ensures Mirror(p) == p { MirrorInside(t, p - 128 * t); }
      for i := size to 128
        invariant forall p :: 0 <= p < PAGES ==> map9[p] == before[if p < 128 * t + i then Mirror(p) else p]
      {
        var k := i % size;
        MirrorAt(t, i);
        MirrorInside(t, k);
        map9[128 * t + i] := map9[128 * t + k];
      }
    }
  }

  lemma {:induction false} ResetHasNoSlots(regs: Regs, n: nat)
    requires n <= BANKS && forall b :: 0 <= b < BANKS ==> regs[b] == 0
    ensures SlotsOf(regs, n) == NO_SLOTS
  {
    if n > 0 { ResetHasNoSlots(regs, n - 1); }
  }

  lemma OrderAt(n: nat)
    requires n < BANKS
    ensures (ORDER[n] == C <==> n == 7) && (ORDER[n] == D <==> n == 8)
  {
  }

  lemma Arm9Step(before: seq<int>, after: seq<int>, regs: Regs, n: nat)
    requires n < BANKS && Arm9Layer(before, regs, n) && |after| == PAGES
    requires forall p :: 0 <= p < PAGES ==>
               after[p] == if Claim(regs, ORDER[n], p) != UNMAPPED then Claim(regs, ORDER[n], p) else before[p]
    ensures Arm9Layer(after, regs, n + 1)
  {
    hide Claim;
  }

  lemma LcdcStep(before: seq<int>, after: seq<int>, regs: Regs, n: nat)
    requires n < BANKS && LcdcLayer(before, regs, n) && |after| == LCDC_PAGES
    requires forall p :: 0 <= p < LCDC_PAGES ==>
               after[p] == if InLcdc(regs, ORDER[n]) && BankOf(p) == ORDER[n] then p else before[p]
    ensures LcdcLayer(after, regs, n + 1)
  {
    hide InLcdc, BankOf;
    assert ORDER[..n + 1] == ORDER[..n] + [ORDER[n]];
  }

  lemma MirrorInside(region: int, i: int)
    requires 0 <= region < 4 && 0 <= i < RegionSize(region)
    ensures Mirror(region * 128 + i) == region * 128 + i
  {
    MirrorAt(region, i);
  }

  lemma OrderIsComplete(bank: int)
    requires 0 <= bank < BANKS
    ensures bank in ORDER[..BANKS]
  {
    assert ORDER[..BANKS] == ORDER;
    assert ORDER[0] == 8 && ORDER[1] == 7 && ORDER[2] == 6 && ORDER[3] == 5 && ORDER[4] == 4
        && ORDER[5] == 0 && ORDER[6] == 1 && ORDER[7] == 2 && ORDER[8] == 3;
  }
}
