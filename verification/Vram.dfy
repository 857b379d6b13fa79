/**
 VRAM banking (source/MMU.cpp, source/MMU.h): what the nine bank control
 registers mean, as functions of the registers alone, and how ARM9, ARM7 and the
 GPU find a byte of the 656 KB display memory through the page tables.
 */
module Vram {

  const PAGE := 0x4000
  const BANKS := 9
  const PAGES := 512              // ARM9's BG and OBJ area
  const LCDC_PAGES := 41
  const UNMAPPED := 41            // also the page number of the blank memory
  const LCD_BYTES := 0xA4000

  // Banks
  const A := 0
  const C := 2
  const D := 3
  const E := 4
  const F := 5
  const G := 6
  const H := 7
  const I := 8

  // The four regions of the ARM9 area, 128 pages each.
  const ABG := 0
  const BBG := 128
  const AOBJ := 256
  const BOBJ := 384

  type Byte = b: int | 0 <= b < 0x100
  type Regs = r: seq<Byte> | |r| == BANKS witness [0, 0, 0, 0, 0, 0, 0, 0, 0]

  /** vram_bank_info */
  function FirstPage(bank: int): (p: int)
    requires 0 <= bank < BANKS
    ensures 0 <= p && p + NumPages(bank) <= LCDC_PAGES
  {
    if bank <= E then 8 * bank else if bank == F then 36 else if bank == G then 37 else if bank == H then 38 else 40
  }

  function NumPages(bank: int): (n: int)
    requires 0 <= bank < BANKS
    ensures 1 <= n <= 8
  {
    if bank <= D then 8 else if bank == E then 4 else if bank == H then 2 else 1
  }

  predicate Enabled(cnt: Byte) { cnt / 0x80 == 1 }

  /** The purpose field: two bits in banks A, B, H and I, three in the others. */
  function Mst(bank: int, cnt: Byte): int { if bank < C || bank >= H then cnt % 4 else cnt % 8 }

  function Ofs(cnt: Byte): (o: int)
    ensures 0 <= o < 4
  {
    cnt / 8 % 4
  }

  /** Banks F and G select one of four single pages. */
  function PageOfs(cnt: Byte): (o: int)
    ensures o in {0, 1, 4, 5}
  {
    match Ofs(cnt) case 0 => 0 case 1 => 1 case 2 => 4 case _ => 5
  }

  /** Where a bank places itself in the ARM9 area: none, one or two copies. */
  function Placements(bank: int, cnt: Byte): (r: seq<int>)
    requires 0 <= bank < BANKS
    ensures |r| <= 2
  {
    if !Enabled(cnt) then []
    else
      var mst, ofs := Mst(bank, cnt), Ofs(cnt);
      if bank < C then
        if mst == 1 then [ABG + ofs * 8] else if mst == 2 && ofs < 2 then [AOBJ + ofs * 8] else []
      else if bank < E then
        if mst == 1 then [ABG + ofs * 8] else if mst == 4 then [if bank == C then BBG else BOBJ] else []
      else if bank == E then
        if mst == 1 then [ABG] else if mst == 2 then [AOBJ] else []
      else if bank < H then
        if mst == 1 then [ABG + PageOfs(cnt), ABG + PageOfs(cnt) + 2]
        else if mst == 2 then [AOBJ + PageOfs(cnt), AOBJ + PageOfs(cnt) + 2] else []
      else if bank == H then
        if mst == 1 then [BBG, BBG + 4] else []
      else
        if mst == 1 then [BBG + 2, BBG + 3] else if mst == 2 then [BOBJ, BOBJ + 1] else []
  }

  /** The mappable pages of each region; the rest of the region mirrors them. */
  function RegionSize(region: int): (s: int)
    requires 0 <= region < 4
    ensures s in {8, 16, 32}
  {
    match region case 0 => 32 case 1 => 8 case 2 => 16 case _ => 8
  }

  function Mirror(p: int): (q: int)
    requires 0 <= p < PAGES
    ensures 0 <= q <= p && q / 128 == p / 128 && q % 128 < RegionSize(q / 128)
  {
    p / 128 * 128 + p % 128 % RegionSize(p / 128)
  }

  predicate Covers(bank: int, at: int, p: int)
    requires 0 <= bank < BANKS
  {
    at <= p < at + NumPages(bank)
  }

  /** The display page a bank puts at ARM9 page `p`, or UNMAPPED. */
  function ClaimAt(bank: int, at: seq<int>, p: int): (page: int)
    requires 0 <= bank < BANKS
    ensures 0 <= page <= UNMAPPED
  {
    if |at| == 2 && Covers(bank, at[1], p) then FirstPage(bank) + p - at[1]
    else if |at| > 0 && Covers(bank, at[0], p) then FirstPage(bank) + p - at[0]
    else UNMAPPED
  }

  function Claim(regs: Regs, bank: int, p: int): (page: int)
    requires 0 <= bank < BANKS
    ensures 0 <= page <= UNMAPPED
  {
    ClaimAt(bank, Placements(bank, regs[bank]), p)
  }

  /** The order in which the banks are applied, later ones on top. */
  const ORDER: seq<int> := [I, H, G, F, E, A, A + 1, C, D]

  /** The page at `p` once the first `n` banks of the order are applied. */
  function Layered(regs: Regs, p: int, n: nat): (page: int)
    requires n <= BANKS
    ensures 0 <= page <= UNMAPPED
  {
    if n == 0 then UNMAPPED
    else
      var c := Claim(regs, ORDER[n - 1], p);
      if c != UNMAPPED then c else Layered(regs, p, n - 1)
  }

  /** The ARM9 page table that a register file stands for. */
  function PageAt(regs: Regs, p: int): (page: int)
    requires 0 <= p < PAGES
    ensures 0 <= page <= UNMAPPED
  {
    Layered(regs, Mirror(p), BANKS)
  }

  predicate InLcdc(regs: Regs, bank: int)
    requires 0 <= bank < BANKS
  {
    Enabled(regs[bank]) && Mst(bank, regs[bank]) == 0
  }

  /** The LCDC table: a page is reachable when its bank is in plain LCDC mode. */
  function LcdcAt(regs: Regs, p: int): int
    requires 0 <= p < LCDC_PAGES
  {
    if InLcdc(regs, BankOf(p)) then p else UNMAPPED
  }

  function BankOf(p: int): (bank: int)
    requires 0 <= p < LCDC_PAGES
    ensures 0 <= bank < BANKS && FirstPage(bank) <= p < FirstPage(bank) + NumPages(bank)
  {
    if p < 36 then p / 8 else if p == 36 then F else if p == 37 then G else if p < 40 then H else I
  }

  predicate ToArm7(regs: Regs, bank: int, slot: int)
    requires bank == C || bank == D
  {
    Enabled(regs[bank]) && Mst(bank, regs[bank]) == 2 && Ofs(regs[bank]) == slot
  }

  /** ARM7's two 128 KB windows; D is applied after C. */
  function Arm7At(regs: Regs, slot: int): (page: int)
    ensures page == UNMAPPED || page == FirstPage(C) || page == FirstPage(D)
  {
    if ToArm7(regs, D, slot) then FirstPage(D) else if ToArm7(regs, C, slot) then FirstPage(C) else UNMAPPED
  }

  // --------------------------------------------------- the table's meaning

  /** In every mappable area the last claimant in the order wins. */
  lemma {:induction false} LastClaimantWins(regs: Regs, p: int, n: nat, k: nat)
    requires k < n <= BANKS && Claim(regs, ORDER[k], p) != UNMAPPED
    requires forall j :: k < j < n ==> Claim(regs, ORDER[j], p) == UNMAPPED
    ensures Layered(regs, p, n) == Claim(regs, ORDER[k], p)
  {
    if k < n - 1 { LastClaimantWins(regs, p, n - 1, k); }
  }

  lemma {:induction false} NoClaimantLeavesBlank(regs: Regs, p: int, n: nat)
    requires n <= BANKS && forall j :: 0 <= j < n ==> Claim(regs, ORDER[j], p) == UNMAPPED
    ensures Layered(regs, p, n) == UNMAPPED
  {
    if n > 0 { NoClaimantLeavesBlank(regs, p, n - 1); }
  }

  /** Each region repeats its mappable area. */
  lemma RegionsArePeriodic(regs: Regs, region: int, i: int)
    requires 0 <= region < 4 && 0 <= i < 128 - RegionSize(region)
    ensures PageAt(regs, region * 128 + i + RegionSize(region)) == PageAt(regs, region * 128 + i)
  {
    hide Layered;
    var size := RegionSize(region);
    assert (i + size) % size == i % size by {
      if size == 8 { assert (i + 8) % 8 == i % 8; }
      else if size == 16 { assert (i + 16) % 16 == i % 16; }
      else { assert (i + 32) % 32 == i % 32; }
    }
    MirrorAt(region, i);
    MirrorAt(region, i + size);
  }

  lemma MirrorAt(region: int, i: int)
    requires 0 <= region < 4 && 0 <= i < 128
    ensures Mirror(region * 128 + i) == region * 128 + i % RegionSize(region)
  {
    assert (region * 128 + i) / 128 == region && (region * 128 + i) % 128 == i;
  }

  /** No bank reaches beyond the mappable area of the region it is placed in, so
      mirroring never shows part of a bank only. */
  lemma PlacementsFit(bank: int, cnt: Byte, k: nat)
    requires 0 <= bank < BANKS && k < |Placements(bank, cnt)|
    ensures var at := Placements(bank, cnt)[k];
            0 <= at < PAGES && at % 128 + NumPages(bank) <= RegionSize(at / 128)
  {
  }

  // ------------------------------------------------------ three readers

  /** The result of MMU_LCDmap: a host address, or nothing. */
  datatype Mapped = Unmapped | At(addr: int)

  /** MMU_gpu_map, as an offset from the start of the display memory. */
  function GpuOffset(regs: Regs, addr: nat): int {
    PageAt(regs, addr / PAGE % PAGES) * PAGE + addr % PAGE
  }

  /** A pointer may move inside a page as the address does. */
  lemma WithinPage(regs: Regs, addr: nat, k: nat)
    requires addr % PAGE + k < PAGE
    ensures GpuOffset(regs, addr + k) == GpuOffset(regs, addr) + k
  {
    assert (addr + k) / PAGE == addr / PAGE && (addr + k) % PAGE == addr % PAGE + k;
    hide PageAt;
  }

  /** The ARM9 side of MMU_LCDmap for the VRAM range. */
  function Arm9Map(regs: Regs, addr: nat): Mapped
    requires 0x0600_0000 <= addr < 0x0700_0000
  {
    var a := if addr >= 0x068A_4000 then 0x0680_0000 + addr / 0x8_0000 % 2 * 0x8_0000 else addr;
    var page := if a >= 0x0680_0000 then LcdcAt(regs, a / PAGE % 64) else PageAt(regs, a / PAGE % PAGES);
    if page == UNMAPPED then Unmapped else At(0x0600_0000 + page * PAGE + a % PAGE)
  }

  /** The ARM7 side. */
  function Arm7Map(regs: Regs, addr: nat): Mapped
    requires 0x0600_0000 <= addr < 0x0700_0000
  {
    var page := Arm7At(regs, addr / 0x2_0000 % 2);
    if page == UNMAPPED then Unmapped else At(0x0600_0000 + page * PAGE + addr % 0x2_0000)
  }

  /** ARM9 and the GPU see the same byte everywhere in the BG and OBJ area, and
      the GPU reads blank memory exactly where ARM9 finds nothing. */
  lemma CpuAndGpuAgree(regs: Regs, addr: nat)
    requires 0x0600_0000 <= addr < 0x0680_0000
    ensures Arm9Map(regs, addr).Unmapped? <==> GpuOffset(regs, addr) >= LCD_BYTES
    ensures Arm9Map(regs, addr).At? ==> Arm9Map(regs, addr).addr == 0x0600_0000 + GpuOffset(regs, addr)
    ensures 0 <= GpuOffset(regs, addr) < LCD_BYTES + PAGE
  {
  }

  /** Every mapped address of either CPU lies inside the display memory. */
  lemma MappedIsInside(regs: Regs, addr: nat)
    requires 0x0600_0000 <= addr < 0x0700_0000
    ensures var m := Arm9Map(regs, addr); m.At? ==> 0x0600_0000 <= m.addr < 0x0600_0000 + LCD_BYTES
    ensures var m := Arm7Map(regs, addr); m.At? ==> 0x0600_0000 <= m.addr < 0x0600_0000 + LCD_BYTES
  {
  }

  // ------------------------------------------ textures and palettes

  const BLANK := LCD_BYTES        // the blank memory follows the display memory
  const HALF := 0x2000            // 8 KB

  /** Where the renderers find texture images, texture palettes and extended
      palettes: offsets into the display memory, or into the blank memory. */
  datatype Slots = Slots(tex: seq<int>, texPal: seq<int>, bgPalA: seq<int>, bgPalB: seq<int>, objPalA: seq<int>,
        objPalB: seq<int>)
  {
    predicate Shaped() {
      |tex| == 4 && |texPal| == 6 && |bgPalA| == 4 && |bgPalB| == 4 && |objPalA| == 2 && |objPalB| == 2
    }
  }

  const NO_SLOTS := Slots([BLANK, BLANK, BLANK, BLANK], [BLANK, BLANK, BLANK, BLANK, BLANK, BLANK],
                          [BLANK, BLANK, BLANK, BLANK], [BLANK, BLANK, BLANK, BLANK], [BLANK, BLANK], [BLANK, BLANK])

  /** What one bank sets.  The second half of an OBJ palette is placed after the
      previous second half, not after the first. */
  function SlotsAfter(bank: int, cnt: Byte, s: Slots): (r: Slots)
    requires 0 <= bank < BANKS && s.Shaped()
    ensures r.Shaped()
  {
    var mst, ofs, here := Mst(bank, cnt), Ofs(cnt), FirstPage(bank) * PAGE;
    if !Enabled(cnt) then s
    else if bank < E then
      if mst == 3 then s.(tex := s.tex[ofs := here]) else s
    else if bank == E then
      if mst == 3 then s.(texPal := [here, here + PAGE, here + 2 * PAGE, here + 3 * PAGE] + s.texPal[4..])
      else if mst == 4 then s.(bgPalA := [here, here + HALF, here + 2 * HALF, here + 3 * HALF]) else s
    else if bank < H then
      if mst == 3 then s.(texPal := s.texPal[PageOfs(cnt) := here])
      else if mst == 4 && ofs < 2 then s.(bgPalA := s.bgPalA[2 * ofs := here][2 * ofs + 1 := here + HALF])
      else if mst == 5 then s.(objPalA := [here, s.objPalA[1] + HALF]) else s
    else if bank == H then
      if mst == 2 then s.(bgPalB := [here, here + HALF, here + 2 * HALF, here + 3 * HALF]) else s
    else
      if mst == 3 then s.(objPalB := [here, s.objPalB[1] + HALF]) else s
  }

  function SlotsOf(regs: Regs, n: nat): (s: Slots)
    requires n <= BANKS
    ensures s.Shaped()
  {
    if n == 0 then NO_SLOTS else SlotsAfter(ORDER[n - 1], regs[ORDER[n - 1]], SlotsOf(regs, n - 1))
  }

  predicate OwnsObjPalA(regs: Regs, bank: int)
    requires bank == F || bank == G
  {
    Enabled(regs[bank]) && Mst(bank, regs[bank]) == 5
  }

  /** The OBJ palette slots of engine A after the banks that set them (I, H, G, F). */
  lemma {:induction false} ObjPaletteA(regs: Regs, n: nat)
    requires 4 <= n <= BANKS
    ensures SlotsOf(regs, n).objPalA ==
            [if OwnsObjPalA(regs, F) then FirstPage(F) * PAGE
             else if OwnsObjPalA(regs, G) then FirstPage(G) * PAGE else BLANK,
             BLANK + HALF * ((if OwnsObjPalA(regs, F) then 1 else 0) + (if OwnsObjPalA(regs, G) then 1 else 0))]
  {
    if n == 4 {
      assert ORDER[0] == I && ORDER[1] == H && ORDER[2] == G && ORDER[3] == F;
      assert SlotsOf(regs, 1).objPalA == [BLANK, BLANK];
      assert SlotsOf(regs, 2).objPalA == [BLANK, BLANK];
      assert SlotsOf(regs, 3).objPalA[1] == BLANK + if OwnsObjPalA(regs, G) then HALF else 0;
    } else {
      ObjPaletteA(regs, n - 1);
    }
  }

  /** So a bank given to engine A's OBJ palettes never serves their second half:
      that half is the bank's own second half exactly if there is no such bank. */
  lemma SecondObjPaletteIsBlank(regs: Regs)
    ensures var p := SlotsOf(regs, BANKS).objPalA;
            && p[1] >= BLANK
            && (p == (if OwnsObjPalA(regs, F) then [FirstPage(F) * PAGE, FirstPage(F) * PAGE + HALF]
                      else if OwnsObjPalA(regs, G) then [FirstPage(G) * PAGE, FirstPage(G) * PAGE + HALF]
                      else [BLANK, BLANK])
                <==> !OwnsObjPalA(regs, F) && !OwnsObjPalA(regs, G))
  {
    ObjPaletteA(regs, BANKS);
  }
}
