/**
 The format of text backgrounds, bit by bit and byte by byte: map entries, tiles, screens
 and the memory banks they come from.
 */
module TextTiles {
  import opened TextBg
  import Arith
  import Vram
  import VramPlaces

  // ------------------------------------------------------- one map entry

  /** Bit 10 of a map entry mirrors the columns of the tile. */
  lemma HorizontalFlip(l: Layer, e: nat, row: nat, c: nat, x: nat)
    requires e / 0x400 % 2 == 0 && row < 8 && c < 8
    ensures Dot(l, e + 0x400, row, c, x) == Dot(l, e, row, 7 - c, x)
  {
    AddBit(e, 0x400);
    hide TileNum, HFlip, VFlip, Palette;
    FlagsOf(e);
    FlagsOf(e + 0x400);
  }

  /** Bit 11 mirrors its rows. */
  lemma VerticalFlip(l: Layer, e: nat, row: nat, c: nat, x: nat)
    requires e / 0x800 % 2 == 0 && row < 8 && c < 8
    ensures Dot(l, e + 0x800, row, c, x) == Dot(l, e, 7 - row, c, x)
  {
    AddBit(e, 0x800);
    hide TileNum, HFlip, VFlip, Palette;
    FlagsOf(e);
    FlagsOf(e + 0x800);
  }

  /** The top four bits move the colour by so many palettes of 16, or of 256 where the
      extended ones are used, and change nothing else. */
  lemma PaletteBits(l: Layer, e: nat, k: nat, row: nat, c: nat, x: nat)
    requires e < 0x1000 && k < 16 && row < 8 && c < 8
    ensures var plain, moved := Dot(l, e, row, c, x), Dot(l, e + 0x1000 * k, row, c, x);
            && moved.x == plain.x && moved.index == plain.index
            && moved.colour == plain.colour + if !l.deep then 32 * k else if l.ext then 512 * k else 0
  {
    hide TileNum, HFlip, VFlip, Palette, ByteAt;
    AddPalette(e, k);
    FlagsOf(e);
    FlagsOf(e + 0x1000 * k);
  }

  /** The low ten bits select the tile: 64 bytes each, a byte a dot, or 32 bytes with the
      left dot in the low half, eight dots a row. */
  lemma TileBytes(l: Layer, n: nat, row: nat, c: nat, x: nat)
    requires n < 1024 && row < 8 && c < 8
    ensures var d := Dot(l, n, row, c, x);
            && d.x == x
            && (l.deep ==> d.index == ByteAt(l, l.tileRam + 64 * n + 8 * row + c) && d.colour == 2 * d.index)
            && (!l.deep ==>
                  var b := ByteAt(l, l.tileRam + 32 * n + 4 * row + c / 2);
                  d.index == (if c % 2 == 0 then b % 16 else b / 16) && d.colour == 2 * d.index)
  {
    assert n % 0x400 == n && n / 0x400 == 0 && n / 0x800 == 0 && n / 0x1000 == 0;
    hide ByteAt;
  }

  /** The fields of an entry from its number of 1024s. */
  lemma Fields(e: nat, q: nat)
    requires e / 0x400 == q
    ensures e / 0x800 == q / 2 && e / 0x1000 == q / 4
  {
  }

  lemma AddUnits(e: nat, k: nat)
    ensures (e + 0x400 * k) / 0x400 == e / 0x400 + k && (e + 0x400 * k) % 0x400 == e % 0x400
  {
    Arith.Wraps(e, 0x400, k);
  }

  lemma AddBit(e: nat, bit: nat)
    requires (bit == 0x400 || bit == 0x800) && e / bit % 2 == 0
    ensures (e + bit) % 0x400 == e % 0x400 && (e + bit) / 0x1000 % 16 == e / 0x1000 % 16
    ensures (e + bit) / 0x400 % 2 == if bit == 0x400 then 1 else e / 0x400 % 2
    ensures (e + bit) / 0x800 % 2 == if bit == 0x800 then 1 else e / 0x800 % 2
  {
    var q := e / 0x400;
    AddUnits(e, if bit == 0x400 then 1 else 2);
    Fields(e, q);
    Fields(e + bit, if bit == 0x400 then q + 1 else q + 2);
    Units(q);
  }

  lemma Units(q: nat)
    ensures q % 2 == 0 ==> (q + 1) % 2 == 1 && (q + 1) / 2 == q / 2 && (q + 1) / 4 == q / 4
    ensures q / 2 % 2 == 0 ==> (q + 2) % 2 == q % 2 && (q + 2) / 2 % 2 == 1 && (q + 2) / 4 == q / 4
  {
  }

  lemma AddPalette(e: nat, k: nat)
    requires e < 0x1000 && k < 16
    ensures var f := e + 0x1000 * k;
            && f % 0x400 == e % 0x400 && f / 0x400 % 2 == e / 0x400 % 2 && f / 0x800 % 2 == e / 0x800 % 2
            && f / 0x1000 % 16 == k && e / 0x1000 % 16 == 0
  {
    var q := e / 0x400;
    AddUnits(e, 4 * k);
    Fields(e, q);
    Fields(e + 0x1000 * k, q + 4 * k);
    Fours(q, k);
  }

  lemma Fours(q: nat, k: nat)
    requires q < 4 && k < 16
    ensures (q + 4 * k) % 2 == q % 2 && (q + 4 * k) / 2 % 2 == q / 2 % 2 && (q + 4 * k) / 4 == k
  {
  }

  lemma FlagsOf(e: nat)
    ensures HFlip(e) == (e / 0x400 % 2 == 1) && VFlip(e) == (e / 0x800 % 2 == 1)
    ensures TileNum(e) == e % 0x400 && Palette(e) == e / 0x1000 % 16
  {
  }

  // ---------------------------------------------------------- the screens

  /** Where the map entry of a dot lies: screens of 256 by 256 dots and 2 KB, the right one
      after the left one, the lower ones after the upper ones; a row of 32 entries takes 64
      bytes. */
  function EntryPlace(l: Layer, u: nat, v: nat): nat {
    l.mapRam + u % 256 / 8 * 2 + v % 256 / 8 * 64
      + (if u >= 256 then 0x800 else 0) + (if v < 256 then 0 else if l.screenSize == 3 then 0x1000 else 0x800)
  }

  /** Size 0 is 256 by 256 dots, 1 is 512 wide, 2 is 512 high and 3 both. */
  lemma PixelComesFrom(l: Layer, hofs: nat, y: nat, x: nat)
    requires l.screenSize < 4
    ensures var u := (hofs + x) % if l.screenSize == 1 || l.screenSize == 3 then 512 else 256;
            var v := y % if l.screenSize == 2 || l.screenSize == 3 then 512 else 256;
            var e := ByteAt(l, EntryPlace(l, u, v)) + 0x100 * ByteAt(l, EntryPlace(l, u, v) + 1);
            Pixel(l, hofs, y, x) == Dot(l, e, v % 8, u % 8, x)
  {
    Sizes(l);
    hide ByteAt, Dot, EntryPlace, Wide, High;
    PlaceOfEntry(l, (hofs + x) % Wide(l), y % High(l));
  }

  lemma Sizes(l: Layer)
    requires l.screenSize < 4
    ensures Wide(l) == if l.screenSize == 1 || l.screenSize == 3 then 512 else 256
    ensures High(l) == if l.screenSize == 2 || l.screenSize == 3 then 512 else 256
  {
  }

  lemma PlaceOfEntry(l: Layer, u: nat, v: nat)
    requires l.screenSize < 4 && u < Wide(l) && v < High(l)
    ensures l.mapRam + 0x800 * (u / 256 + v / 256 * (Wide(l) / 256)) + 64 * (v / 8 % 32) + 2 * (u / 8 % 32)
         == EntryPlace(l, u, v)
  {
    Column(u);
    Column(v);
  }

  lemma Column(u: nat)
    requires u < 512
    ensures u / 8 % 32 == u % 256 / 8 && u / 256 == if u >= 256 then 1 else 0
  {
  }

  // ------------------------------------------------------------ the banks

  lemma BankAInPlace(regs: Vram.Regs, j: nat)
    requires regs[0] == 0x81 && (forall b :: 1 <= b < 9 ==> regs[b] < 0x80) && j < 0x2_0000
    ensures Vram.GpuOffset(regs, 0x0600_0000 + j) == j
  {
    hide Vram.GpuOffset, Vram.Arm9Map;
    VramPlaces.OneBank(regs, 0, 0x0600_0000 + j);
    assert VramPlaces.Canonical(0x0600_0000 + j) == 0x0600_0000 + j;
  }

  lemma BankCInPlace(regs: Vram.Regs, j: nat)
    requires regs[2] == 0x84 && (forall b :: 0 <= b < 9 && b != 2 ==> regs[b] < 0x80) && j < 0x2_0000
    ensures Vram.GpuOffset(regs, 0x0620_0000 + j) == 0x4_0000 + j
  {
    hide Vram.GpuOffset, Vram.Arm9Map;
    VramPlaces.OneBank(regs, 2, 0x0620_0000 + j);
    assert VramPlaces.Canonical(0x0620_0000 + j) == 0x0620_0000 + j;
  }

  /** With bank A as background memory of engine A, its tiles are read from the bank at the
      block and base that its registers name, as far as the bank reaches. */
  lemma TilesOfEngineA(l: Layer, charBlock: nat, screenBlock: nat, charBase: nat, screenBase: nat, k: nat)
    requires l.regs[0] == 0x81 && (forall b :: 1 <= b < 9 ==> l.regs[b] < 0x80) && l.screenSize < 4
    requires charBlock * 0x1_0000 + charBase * 0x4000 + k < 0x2_0000
    ensures var r := PlaceLayer(l, false, charBlock, screenBlock, charBase, screenBase);
            ByteAt(r, r.tileRam + k) == l.lcd(charBlock * 0x1_0000 + charBase * 0x4000 + k)
  {
    hide Vram.GpuOffset;
    BankAInPlace(l.regs, charBlock * 0x1_0000 + charBase * 0x4000 + k);
  }

  lemma MapOfEngineA(l: Layer, charBlock: nat, screenBlock: nat, charBase: nat, screenBase: nat, k: nat)
    requires l.regs[0] == 0x81 && (forall b :: 1 <= b < 9 ==> l.regs[b] < 0x80) && l.screenSize < 4
    requires screenBlock * 0x1_0000 + screenBase * 0x800 + k < 0x2_0000
    ensures var r := PlaceLayer(l, false, charBlock, screenBlock, charBase, screenBase);
            ByteAt(r, r.mapRam + k) == l.lcd(screenBlock * 0x1_0000 + screenBase * 0x800 + k)
  {
    hide Vram.GpuOffset;
    BankAInPlace(l.regs, screenBlock * 0x1_0000 + screenBase * 0x800 + k);
  }

  /** With bank C as background memory of engine B, both come from that bank; engine B has
      no blocks. */
  lemma BankOfEngineB(l: Layer, charBlock: nat, screenBlock: nat, charBase: nat, screenBase: nat, k: nat)
    requires l.regs[2] == 0x84 && (forall b :: 0 <= b < 9 && b != 2 ==> l.regs[b] < 0x80) && l.screenSize < 4
    ensures var r := PlaceLayer(l, true, charBlock, screenBlock, charBase, screenBase);
            && (charBase * 0x4000 + k < 0x2_0000 ==>
                  ByteAt(r, r.tileRam + k) == l.lcd(0x4_0000 + charBase * 0x4000 + k))
            && (screenBase * 0x800 + k < 0x2_0000 ==>
                  ByteAt(r, r.mapRam + k) == l.lcd(0x4_0000 + screenBase * 0x800 + k))
  {
    hide Vram.GpuOffset;
    if charBase * 0x4000 + k < 0x2_0000 { BankCInPlace(l.regs, charBase * 0x4000 + k); }
    if screenBase * 0x800 + k < 0x2_0000 { BankCInPlace(l.regs, screenBase * 0x800 + k); }
  }
}
