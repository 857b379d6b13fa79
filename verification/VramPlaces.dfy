/**
 Where each bank of the display memory is found, in addresses: the memory map that the
 page tables of Vram implement, read from the control registers bit by bit.
 */
module VramPlaces {
  import opened Arith
  import opened Vram

  // --------------------------------------------------- the memory map

  /** Where a bank lies in the display memory: 128 KB each for A to D, 64 KB for E, 16 KB
      for F and G, 32 KB for H, 16 KB for I. */
  function BankStart(bank: int): int
    requires 0 <= bank < 9
  {
    [0, 0x2_0000, 0x4_0000, 0x6_0000, 0x8_0000, 0x9_0000, 0x9_4000, 0x9_8000, 0xA_0000][bank]
  }

  function BankSize(bank: int): int
    requires 0 <= bank < 9
  {
    [0x2_0000, 0x2_0000, 0x2_0000, 0x2_0000, 0x1_0000, 0x4000, 0x4000, 0x8000, 0x4000][bank]
  }

  /** Where a bank in use shows itself to ARM9: at no address, at one or at two.  Purpose
      and offset are bits 0-2 (0-1 in A, B, H and I) and 3-4 of its register. */
  function Homes(bank: int, cnt: Byte): seq<int>
    requires 0 <= bank < 9
  {
    var mst, ofs := if bank < 2 || bank > 6 then cnt % 4 else cnt % 8, cnt / 8 % 4;
    var small := ofs % 2 * 0x4000 + ofs / 2 * 0x1_0000;
    if cnt < 0x80 then []
    else
      match bank
      case 0 => LargeHome(mst, ofs)
      case 1 => LargeHome(mst, ofs)
      case 2 => if mst == 1 then [0x0600_0000 + ofs * 0x2_0000] else if mst == 4 then [0x0620_0000] else []
      case 3 => if mst == 1 then [0x0600_0000 + ofs * 0x2_0000] else if mst == 4 then [0x0660_0000] else []
      case 4 => if mst == 1 then [0x0600_0000] else if mst == 2 then [0x0640_0000] else []
      case 7 => if mst == 1 then [0x0620_0000, 0x0621_0000] else []
      case 8 =>
        if mst == 1 then [0x0620_8000, 0x0620_C000] else if mst == 2 then [0x0660_0000, 0x0660_4000] else []
      case _ =>
        if mst == 1 then [0x0600_0000 + small, 0x0600_8000 + small]
        else if mst == 2 then [0x0640_0000 + small, 0x0640_8000 + small] else []
  }

  /** Banks A and B: backgrounds of engine A, or its sprites. */
  function LargeHome(mst: int, ofs: int): seq<int> {
    if mst == 1 then [0x0600_0000 + ofs * 0x2_0000]
    else if mst == 2 && ofs < 2 then [0x0640_0000 + ofs * 0x2_0000] else []
  }

  /** The byte of the display memory that a bank shows at `a`, or -1. */
  function ShownBy(bank: int, cnt: Byte, a: int): int
    requires 0 <= bank < 9
  {
    var at := Homes(bank, cnt);
    if |at| > 0 && at[0] <= a < at[0] + BankSize(bank) then BankStart(bank) + a - at[0]
    else if |at| > 1 && at[1] <= a < at[1] + BankSize(bank) then BankStart(bank) + a - at[1]
    else -1
  }

  /** The four areas repeat: engine A's backgrounds every 512 KB, its sprites every 256 KB,
      engine B's every 128 KB. */
  function Canonical(addr: int): int
    requires 0x0600_0000 <= addr < 0x0680_0000
  {
    if addr < 0x0620_0000 then 0x0600_0000 + (addr - 0x0600_0000) % 0x8_0000
    else if addr < 0x0640_0000 then 0x0620_0000 + (addr - 0x0620_0000) % 0x2_0000
    else if addr < 0x0660_0000 then 0x0640_0000 + (addr - 0x0640_0000) % 0x4_0000
    else 0x0660_0000 + (addr - 0x0660_0000) % 0x2_0000
  }

  /** Where banks overlap, D is in front of C, B, A, E, F, G, H and I. */
  function Shown(regs: Regs, a: int): int {
    if ShownBy(3, regs[3], a) >= 0 then ShownBy(3, regs[3], a)
    else if ShownBy(2, regs[2], a) >= 0 then ShownBy(2, regs[2], a)
    else if ShownBy(1, regs[1], a) >= 0 then ShownBy(1, regs[1], a)
    else if ShownBy(0, regs[0], a) >= 0 then ShownBy(0, regs[0], a)
    else if ShownBy(4, regs[4], a) >= 0 then ShownBy(4, regs[4], a)
    else if ShownBy(5, regs[5], a) >= 0 then ShownBy(5, regs[5], a)
    else if ShownBy(6, regs[6], a) >= 0 then ShownBy(6, regs[6], a)
    else if ShownBy(7, regs[7], a) >= 0 then ShownBy(7, regs[7], a)
    else ShownBy(8, regs[8], a)
  }

  // ------------------------------------------------ the tables implement it

  lemma SizesAre(bank: int)
    requires 0 <= bank < 9
    ensures FirstPage(bank) * 0x4000 == BankStart(bank) && NumPages(bank) * 0x4000 == BankSize(bank)
  {
  }

  /** The placements of a bank are its homes, page by page. */
  lemma PlacementsAre(bank: int, cnt: Byte)
    requires 0 <= bank < 9
    ensures var at, homes := Placements(bank, cnt), Homes(bank, cnt);
            |at| == |homes| && forall k :: 0 <= k < |at| ==> homes[k] == 0x0600_0000 + at[k] * 0x4000
  {
  }

  lemma ClaimIs(regs: Regs, bank: int, p: int, w: int)
    requires 0 <= bank < 9 && 0 <= p < 512 && 0 <= w < 0x4000
    ensures var shown, claim := ShownBy(bank, regs[bank], 0x0600_0000 + p * 0x4000 + w), Claim(regs, bank, p);
            if claim == 41 then shown == -1 else shown == claim * 0x4000 + w
  {
    SizesAre(bank);
    PlacementsAre(bank, regs[bank]);
    hide Placements, Homes, FirstPage, NumPages, BankStart, BankSize;
  }

  lemma OrderIs()
    ensures ORDER == [8, 7, 6, 5, 4, 0, 1, 2, 3]
  {
  }

  lemma LayersAre(regs: Regs, p: int)
    ensures Layered(regs, p, 9) ==
            var c := b requires 0 <= b < 9 => Claim(regs, b, p);
            if c(3) != 41 then c(3) else if c(2) != 41 then c(2) else if c(1) != 41 then c(1)
            else if c(0) != 41 then c(0) else if c(4) != 41 then c(4) else if c(5) != 41 then c(5)
            else if c(6) != 41 then c(6) else if c(7) != 41 then c(7) else c(8)
  {
    hide Claim;
    OrderIs();
    assert Layered(regs, p, 0) == 41;
    assert Layered(regs, p, 1) == Claim(regs, 8, p);
    assert Layered(regs, p, 2) == if Claim(regs, 7, p) != 41 then Claim(regs, 7, p) else Layered(regs, p, 1);
    assert Layered(regs, p, 3) == if Claim(regs, 6, p) != 41 then Claim(regs, 6, p) else Layered(regs, p, 2);
    assert Layered(regs, p, 4) == if Claim(regs, 5, p) != 41 then Claim(regs, 5, p) else Layered(regs, p, 3);
    assert Layered(regs, p, 5) == if Claim(regs, 4, p) != 41 then Claim(regs, 4, p) else Layered(regs, p, 4);
    assert Layered(regs, p, 6) == if Claim(regs, 0, p) != 41 then Claim(regs, 0, p) else Layered(regs, p, 5);
    assert Layered(regs, p, 7) == if Claim(regs, 1, p) != 41 then Claim(regs, 1, p) else Layered(regs, p, 6);
    assert Layered(regs, p, 8) == if Claim(regs, 2, p) != 41 then Claim(regs, 2, p) else Layered(regs, p, 7);
  }

  lemma LayeredIsShown(regs: Regs, p: int, w: int)
    requires 0 <= p < 512 && 0 <= w < 0x4000
    ensures var shown, page := Shown(regs, 0x0600_0000 + p * 0x4000 + w), Layered(regs, p, 9);
            if page == 41 then shown == -1 else shown == page * 0x4000 + w
  {
    forall b | 0 <= b < 9
      ensures var shown, claim := ShownBy(b, regs[b], 0x0600_0000 + p * 0x4000 + w), Claim(regs, b, p);
              0 <= claim <= 41 && if claim == 41 then shown == -1 else shown == claim * 0x4000 + w
    {
      ClaimIs(regs, b, p, w);
    }
    LayersAre(regs, p);
    hide ShownBy, Claim, Layered;
  }

  lemma CanonicalPage(p: int, w: int)
    requires 0 <= p < 512 && 0 <= w < 0x4000
    ensures Canonical(0x0600_0000 + p * 0x4000 + w) == 0x0600_0000 + Mirror(p) * 0x4000 + w
  {
    MirrorIs(p);
    if p < 128 { InArea(p, w, 32); }
    else if p < 256 { InArea(p - 128, w, 8); }
    else if p < 384 { InArea(p - 256, w, 16); }
    else { InArea(p - 384, w, 8); }
    hide Mirror;
  }

  lemma MirrorIs(p: int)
    requires 0 <= p < 512
    ensures Mirror(p) ==
            if p < 128 then p % 32 else if p < 256 then 128 + (p - 128) % 8
            else if p < 384 then 256 + (p - 256) % 16 else 384 + (p - 384) % 8
  {
  }

  lemma InArea(q: int, w: int, pages: int)
    requires 0 <= q < 128 && 0 <= w < 0x4000 && pages in {8, 16, 32}
    ensures (q * 0x4000 + w) % (pages * 0x4000) == q % pages * 0x4000 + w
  {
    if pages == 8 { QuotientIs(q * 0x4000 + w, 0x2_0000, q / 8); }
    else if pages == 16 { QuotientIs(q * 0x4000 + w, 0x4_0000, q / 16); }
    else { QuotientIs(q * 0x4000 + w, 0x8_0000, q / 32); }
  }

  lemma PageOf(addr: int)
    requires 0x0600_0000 <= addr < 0x0680_0000
    ensures var p, w := addr / 0x4000 % 512, addr % 0x4000;
            0 <= p < 512 && 0 <= w < 0x4000 && addr == 0x0600_0000 + p * 0x4000 + w
  {
  }

  /** The main result: at every address of the background and sprite areas ARM9 and the
      GPU find the byte that the memory map names, and nothing, or blank memory, where it
      names none. */
  lemma BanksAreWhereTheyBelong(regs: Regs, addr: nat)
    requires 0x0600_0000 <= addr < 0x0680_0000
    ensures var shown := Shown(regs, Canonical(addr));
            && Arm9Map(regs, addr) == (if shown == -1 then Unmapped else At(0x0600_0000 + shown))
            && (if shown == -1 then GpuOffset(regs, addr) >= 0xA_4000 else GpuOffset(regs, addr) == shown)
  {
    hide Shown, Canonical, Arm9Map, GpuOffset;
    PageOf(addr);
    Located(regs, addr / 0x4000 % 512, addr % 0x4000);
  }

  lemma Located(regs: Regs, p: int, w: int)
    requires 0 <= p < 512 && 0 <= w < 0x4000
    ensures var addr := 0x0600_0000 + p * 0x4000 + w;
            var shown := Shown(regs, Canonical(addr));
            && Arm9Map(regs, addr) == (if shown == -1 then Unmapped else At(0x0600_0000 + shown))
            && (if shown == -1 then GpuOffset(regs, addr) >= 0xA_4000 else GpuOffset(regs, addr) == shown)
  {
    hide Shown, Canonical, Layered, Mirror, Arm9Map, GpuOffset;
    CanonicalPage(p, w);
    LayeredIsShown(regs, Mirror(p), w);
    MappingIs(regs, p, w);
  }

  lemma MappingIs(regs: Regs, p: int, w: int)
    requires 0 <= p < 512 && 0 <= w < 0x4000
    ensures var addr, page := 0x0600_0000 + p * 0x4000 + w, Layered(regs, Mirror(p), 9);
            && Arm9Map(regs, addr) == (if page == 41 then Unmapped else At(0x0600_0000 + page * 0x4000 + w))
            && GpuOffset(regs, addr) == page * 0x4000 + w
  {
    hide Layered, Mirror;
    var addr := 0x0600_0000 + p * 0x4000 + w;
    assert addr / 0x4000 % 512 == p && addr % 0x4000 == w;
  }

  /** With a single bank in use this is the map of that bank alone. */
  lemma OneBank(regs: Regs, bank: int, addr: nat)
    requires 0 <= bank < 9 && forall b :: 0 <= b < 9 && b != bank ==> regs[b] < 0x80
    requires 0x0600_0000 <= addr < 0x0680_0000
    ensures var shown := ShownBy(bank, regs[bank], Canonical(addr));
            && Arm9Map(regs, addr) == (if shown == -1 then Unmapped else At(0x0600_0000 + shown))
            && (if shown == -1 then GpuOffset(regs, addr) >= 0xA_4000 else GpuOffset(regs, addr) == shown)
  {
    BanksAreWhereTheyBelong(regs, addr);
    var a := Canonical(addr);
    hide Canonical;
    forall b | 0 <= b < 9 && b != bank ensures ShownBy(b, regs[b], a) == -1 { assert Homes(b, regs[b]) == []; }
    hide ShownBy;
  }

  // -------------------------------------------------- the other windows

  /** The bank of a byte of the display memory. */
  function BankHolding(x: int): (bank: int)
    requires 0 <= x < 0xA_4000
    ensures 0 <= bank < 9
  {
    if x < 0x8_0000 then x / 0x2_0000 else if x < 0x9_0000 then 4 else if x < 0x9_4000 then 5
    else if x < 0x9_8000 then 6 else if x < 0xA_0000 then 7 else 8
  }

  /** From 0x06800000 on ARM9 sees each bank whose purpose is 0 at its own place. */
  lemma LcdcIsInPlace(regs: Regs, x: nat)
    requires x < 0xA_4000
    ensures var bank := BankHolding(x); var cnt := regs[bank];
            var plain := cnt >= 0x80 && (if bank < 2 || bank > 6 then cnt % 4 else cnt % 8) == 0;
            Arm9Map(regs, 0x0680_0000 + x) == if plain then At(0x0600_0000 + x) else Unmapped
  {
    assert (0x0680_0000 + x) / 0x4000 % 64 == x / 0x4000 && (0x0680_0000 + x) % 0x4000 == x % 0x4000;
  }

  /** Beyond it every address stands for the first byte of bank A or of bank E. */
  lemma LcdcTail(regs: Regs, addr: nat)
    requires 0x068A_4000 <= addr < 0x0700_0000
    ensures Arm9Map(regs, addr) == Arm9Map(regs, if addr / 0x8_0000 % 2 == 0 then 0x0680_0000 else 0x0688_0000)
  {
  }

  /** Bank C or D as work memory of ARM7. */
  predicate ForArm7(cnt: Byte, window: int) { cnt >= 0x80 && cnt % 8 == 2 && cnt / 8 % 4 == window }

  /** ARM7 sees bank D, or else C, through its two windows of 128 KB, and no other bank. */
  lemma Arm7Windows(regs: Regs, addr: nat)
    requires 0x0600_0000 <= addr < 0x0700_0000
    ensures var window := addr / 0x2_0000 % 2;
            Arm7Map(regs, addr) ==
              if ForArm7(regs[3], window) then At(0x0606_0000 + addr % 0x2_0000)
              else if ForArm7(regs[2], window) then At(0x0604_0000 + addr % 0x2_0000)
              else Unmapped
  {
  }

  // ------------------------------------------------ textures and palettes

  /** A bank in use for purpose `mst`, where purposes have three bits (two in H and I). */
  predicate For(regs: Regs, bank: int, mst: int)
    requires 0 <= bank < 9
  {
    regs[bank] >= 0x80 && (if bank < 2 || bank > 6 then regs[bank] % 4 else regs[bank] % 8) == mst
  }

  function OfsOf(regs: Regs, bank: int): int
    requires 0 <= bank < 9
  {
    regs[bank] / 8 % 4
  }

  /** Texture images: banks A to D, each in the slot of its offset; the last one counts. */
  function TextureAt(regs: Regs, slot: int): int {
    if For(regs, 3, 3) && OfsOf(regs, 3) == slot then 0x6_0000
    else if For(regs, 2, 3) && OfsOf(regs, 2) == slot then 0x4_0000
    else if For(regs, 1, 3) && OfsOf(regs, 1) == slot then 0x2_0000
    else if For(regs, 0, 3) && OfsOf(regs, 0) == slot then 0
    else 0xA_4000
  }

  /** Texture palettes: the four pages of bank E, else F or G in slot 0, 1, 4 or 5. */
  function TexturePaletteAt(regs: Regs, slot: int): int {
    if For(regs, 4, 3) && slot < 4 then 0x8_0000 + slot * 0x4000
    else if For(regs, 5, 3) && OfsOf(regs, 5) % 2 + OfsOf(regs, 5) / 2 * 4 == slot then 0x9_0000
    else if For(regs, 6, 3) && OfsOf(regs, 6) % 2 + OfsOf(regs, 6) / 2 * 4 == slot then 0x9_4000
    else 0xA_4000
  }

  /** Extended background palettes of engine A: the first half of bank E, else F or G for
      slots 0 and 1, or 2 and 3. */
  function BgPaletteAt(regs: Regs, slot: int): int {
    if For(regs, 4, 4) then 0x8_0000 + slot * 0x2000
    else if For(regs, 5, 4) && OfsOf(regs, 5) == slot / 2 then 0x9_0000 + slot % 2 * 0x2000
    else if For(regs, 6, 4) && OfsOf(regs, 6) == slot / 2 then 0x9_4000 + slot % 2 * 0x2000
    else 0xA_4000
  }

  /** What one bank does to each kind of slot. */
  lemma TextureStep(regs: Regs, bank: int, s: Slots, k: int)
    requires 0 <= bank < 9 && s.Shaped() && 0 <= k < 4
    ensures SlotsAfter(bank, regs[bank], s).tex[k] ==
            if bank < 4 && For(regs, bank, 3) && OfsOf(regs, bank) == k then bank * 0x2_0000 else s.tex[k]
  {
  }

  lemma TexturePaletteStep(regs: Regs, bank: int, s: Slots, k: int)
    requires 0 <= bank < 9 && s.Shaped() && 0 <= k < 6
    ensures SlotsAfter(bank, regs[bank], s).texPal[k] ==
            if bank == 4 && For(regs, 4, 3) && k < 4 then 0x8_0000 + k * 0x4000
            else if bank == 5 && For(regs, 5, 3) && OfsOf(regs, 5) % 2 + OfsOf(regs, 5) / 2 * 4 == k then 0x9_0000
            else if bank == 6 && For(regs, 6, 3) && OfsOf(regs, 6) % 2 + OfsOf(regs, 6) / 2 * 4 == k then 0x9_4000
            else s.texPal[k]
  {
  }

  lemma BgPaletteStep(regs: Regs, bank: int, s: Slots, k: int)
    requires 0 <= bank < 9 && s.Shaped() && 0 <= k < 4
    ensures var r := SlotsAfter(bank, regs[bank], s);
            && (r.bgPalA[k] ==
                  if bank == 4 && For(regs, 4, 4) then 0x8_0000 + k * 0x2000
                  else if bank == 5 && For(regs, 5, 4) && OfsOf(regs, 5) == k / 2 then 0x9_0000 + k % 2 * 0x2000
                  else if bank == 6 && For(regs, 6, 4) && OfsOf(regs, 6) == k / 2 then 0x9_4000 + k % 2 * 0x2000
                  else s.bgPalA[k])
            && r.bgPalB[k] == if bank == 7 && For(regs, 7, 2) then 0x9_8000 + k * 0x2000 else s.bgPalB[k]
  {
  }

  lemma SpritePaletteStep(regs: Regs, bank: int, s: Slots)
    requires 0 <= bank < 9 && s.Shaped()
    ensures var r := SlotsAfter(bank, regs[bank], s);
            && (r.objPalA[0] ==
                  if bank == 5 && For(regs, 5, 5) then 0x9_0000
                  else if bank == 6 && For(regs, 6, 5) then 0x9_4000 else s.objPalA[0])
            && r.objPalB == if bank == 8 && For(regs, 8, 3) then [0xA_0000, s.objPalB[1] + 0x2000] else s.objPalB
  {
  }

  /** The banks are applied in this order. */
  lemma SlotsInOrder(regs: Regs, n: nat)
    requires n < 9
    ensures SlotsOf(regs, n + 1) == var b := [8, 7, 6, 5, 4, 0, 1, 2, 3][n]; SlotsAfter(b, regs[b], SlotsOf(regs, n))
    ensures SlotsOf(regs, 0) == Slots([0xA_4000, 0xA_4000, 0xA_4000, 0xA_4000],
                                      [0xA_4000, 0xA_4000, 0xA_4000, 0xA_4000, 0xA_4000, 0xA_4000],
                                      [0xA_4000, 0xA_4000, 0xA_4000, 0xA_4000],
                                      [0xA_4000, 0xA_4000, 0xA_4000, 0xA_4000],
                                      [0xA_4000, 0xA_4000], [0xA_4000, 0xA_4000])
  {
    hide SlotsAfter;
    OrderIs();
  }

  /** Texture images: banks A to D, each in the slot of its offset; the last one counts. */
  lemma TexturesAre(regs: Regs, k: int)
    requires 0 <= k < 4
    ensures SlotsOf(regs, 9).tex[k] == TextureAt(regs, k)
  {
    hide SlotsAfter, SlotsOf, For, OfsOf;
    SlotsInOrder(regs, 0);
    for n: nat := 0 to 9
      invariant SlotsOf(regs, n).tex[k] ==
                  if n > 8 && For(regs, 3, 3) && OfsOf(regs, 3) == k then 0x6_0000
                  else if n > 7 && For(regs, 2, 3) && OfsOf(regs, 2) == k then 0x4_0000
                  else if n > 6 && For(regs, 1, 3) && OfsOf(regs, 1) == k then 0x2_0000
                  else if n > 5 && For(regs, 0, 3) && OfsOf(regs, 0) == k then 0 else 0xA_4000
    {
      SlotsInOrder(regs, n);
      TextureStep(regs, [8, 7, 6, 5, 4, 0, 1, 2, 3][n], SlotsOf(regs, n), k);
    }
  }

  lemma TexturePalettesAre(regs: Regs, k: int)
    requires 0 <= k < 6
    ensures SlotsOf(regs, 9).texPal[k] == TexturePaletteAt(regs, k)
  {
    hide SlotsAfter, SlotsOf, For, OfsOf;
    SlotsInOrder(regs, 0);
    for n: nat := 0 to 9
      invariant SlotsOf(regs, n).texPal[k] ==
                  if n > 4 && For(regs, 4, 3) && k < 4 then 0x8_0000 + k * 0x4000
                  else if n > 3 && For(regs, 5, 3) && OfsOf(regs, 5) % 2 + OfsOf(regs, 5) / 2 * 4 == k then 0x9_0000
                  else if n > 2 && For(regs, 6, 3) && OfsOf(regs, 6) % 2 + OfsOf(regs, 6) / 2 * 4 == k then 0x9_4000
                  else 0xA_4000
    {
      SlotsInOrder(regs, n);
      TexturePaletteStep(regs, [8, 7, 6, 5, 4, 0, 1, 2, 3][n], SlotsOf(regs, n), k);
    }
  }

  lemma BgPalettesAre(regs: Regs, k: int)
    requires 0 <= k < 4
    ensures SlotsOf(regs, 9).bgPalA[k] == BgPaletteAt(regs, k)
  {
    hide SlotsAfter, SlotsOf, For, OfsOf;
    SlotsInOrder(regs, 0);
    for n: nat := 0 to 9
      invariant SlotsOf(regs, n).bgPalA[k] ==
                  if n > 4 && For(regs, 4, 4) then 0x8_0000 + k * 0x2000
                  else if n > 3 && For(regs, 5, 4) && OfsOf(regs, 5) == k / 2 then 0x9_0000 + k % 2 * 0x2000
                  else if n > 2 && For(regs, 6, 4) && OfsOf(regs, 6) == k / 2 then 0x9_4000 + k % 2 * 0x2000
                  else 0xA_4000
    {
      SlotsInOrder(regs, n);
      BgPaletteStep(regs, [8, 7, 6, 5, 4, 0, 1, 2, 3][n], SlotsOf(regs, n), k);
    }
  }

  /** Extended palettes of engine B: banks H and I. */
  lemma EngineBPalettesAre(regs: Regs, k: int)
    requires 0 <= k < 4
    ensures (SlotsOf(regs, 9).bgPalB[k], SlotsOf(regs, 9).objPalB) ==
              (if For(regs, 7, 2) then 0x9_8000 + k * 0x2000 else 0xA_4000,
               if For(regs, 8, 3) then [0xA_0000, 0xA_6000] else [0xA_4000, 0xA_4000])
  {
    hide SlotsAfter, SlotsOf, For, OfsOf;
    SlotsInOrder(regs, 0);
    for n: nat := 0 to 9
      invariant (SlotsOf(regs, n).bgPalB[k], SlotsOf(regs, n).objPalB) ==
                  (if n > 1 && For(regs, 7, 2) then 0x9_8000 + k * 0x2000 else 0xA_4000,
                   if n > 0 && For(regs, 8, 3) then [0xA_0000, 0xA_6000] else [0xA_4000, 0xA_4000])
    {
      SlotsInOrder(regs, n);
      BgPaletteStep(regs, [8, 7, 6, 5, 4, 0, 1, 2, 3][n], SlotsOf(regs, n), k);
      SpritePaletteStep(regs, [8, 7, 6, 5, 4, 0, 1, 2, 3][n], SlotsOf(regs, n));
    }
  }

  /** The first half of the sprite palettes of engine A: bank F, else G. */
  lemma SpritePaletteIs(regs: Regs)
    ensures SlotsOf(regs, 9).objPalA[0] ==
              if For(regs, 5, 5) then 0x9_0000 else if For(regs, 6, 5) then 0x9_4000 else 0xA_4000
  {
    hide SlotsAfter, SlotsOf, For, OfsOf;
    SlotsInOrder(regs, 0);
    for n: nat := 0 to 9
      invariant SlotsOf(regs, n).objPalA[0] ==
                  if n > 3 && For(regs, 5, 5) then 0x9_0000
                  else if n > 2 && For(regs, 6, 5) then 0x9_4000 else 0xA_4000
    {
      SlotsInOrder(regs, n);
      SpritePaletteStep(regs, [8, 7, 6, 5, 4, 0, 1, 2, 3][n], SlotsOf(regs, n));
    }
  }
}
