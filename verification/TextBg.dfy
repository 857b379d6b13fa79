/**
 The text-background blitter (source/GPU.cpp renderline_textBG): nested tile and
 nibble loops with moving pointers, against the meaning of one pixel.
 */
module TextBg {
  import opened Arith
  import Vram

  /** What the registers and the video memory hold while a line is drawn. */
  datatype Layer = Layer(
    regs: Vram.Regs,              // the bank registers, for the page tables
    lcd: int -> Vram.Byte,        // the display memory
    mapRam: nat,                  // BG_map_ram
    tileRam: nat,                 // BG_tile_ram
    screenSize: nat,
    deep: bool,                   // Palette_256
    ext: bool,                    // ExBGxPalette_Enable
    extPal: bool)                 // an extended palette is mapped

  /** One call of __setFinalColorBck: the column, the byte offset of the colour in
      the palette memory and the palette index, of which 0 is transparent. */
  datatype Plot = Plot(x: nat, colour: nat, index: nat)

  // ------------------------------------------ the bases

  /** The part of GPU_setBGProp that places a background in video memory. */
  function PlaceLayer(l: Layer, sub: bool, charBlock: nat, screenBlock: nat, charBase: nat, screenBase: nat): (r: Layer)
    requires l.screenSize < 4
    ensures Placed(r) && r == l.(mapRam := r.mapRam, tileRam := r.tileRam)
  {
    var tile := if sub then 0x0620_0000 else 0x0600_0000 + charBlock * 0x1_0000;
    var screens := if sub then 0x0620_0000 else 0x0600_0000 + screenBlock * 0x1_0000;
    l.(tileRam := tile + charBase * 0x4000, mapRam := screens + screenBase * 0x800)
  }

  predicate Placed(l: Layer) { l.mapRam % 0x800 == 0 && l.tileRam % 0x4000 == 0 && l.screenSize < 4 }

  /** sizeTab for text backgrounds. */
  function Wide(l: Layer): (n: nat)
    ensures n == 256 || n == 512
  {
    if l.screenSize % 2 == 1 then 512 else 256
  }

  function High(l: Layer): (n: nat)
    ensures n == 256 || n == 512
  {
    if l.screenSize >= 2 then 512 else 256
  }

  // ------------------------------------------ the meaning of a pixel

  function ByteAt(l: Layer, addr: nat): Vram.Byte { l.lcd(Vram.GpuOffset(l.regs, addr)) }

  /** The tile entry over a dot of the background: the map is made of screens of
      32 by 32 tiles, a row of screens after the other. */
  function Entry(l: Layer, u: nat, v: nat): (e: nat)
    ensures e < 0x1_0000
  {
    var screen := u / 256 + v / 256 * (Wide(l) / 256);
    var addr := l.mapRam + 0x800 * screen + 64 * (v / 8 % 32) + 2 * (u / 8 % 32);
    ByteAt(l, addr) + 0x100 * ByteAt(l, addr + 1)
  }

  function TileNum(e: nat): nat { e % 0x400 }
  predicate HFlip(e: nat) { e / 0x400 % 2 == 1 }
  predicate VFlip(e: nat) { e / 0x800 % 2 == 1 }
  function Palette(e: nat): nat { e / 0x1000 % 16 }

  function Flipped(flip: bool, k: nat): nat
    requires k < 8
  {
    if flip then 7 - k else k
  }

  /** Where a line of a tile starts: 8 bytes a line, or 4 in 16 colours. */
  function RowBase(l: Layer, e: nat, row: nat): nat
    requires row < 8
  {
    var r := Flipped(VFlip(e), row);
    l.tileRam + if l.deep then 64 * TileNum(e) + 8 * r else 32 * TileNum(e) + 4 * r
  }

  /** A dot of that line; in 16 colours the left dot of a byte is the low one. */
  function Texel(l: Layer, base: nat, col: nat): nat {
    if l.deep then ByteAt(l, base + col)
    else
      var b := ByteAt(l, base + col / 2);
      if col % 2 == 0 then b % 16 else b / 16
  }

  /** Where the colour of an index is found. */
  function Colour(l: Layer, e: nat, index: nat): nat {
    if !l.deep then 2 * (index + 16 * Palette(e)) else 2 * index + if l.ext then 0x200 * Palette(e) else 0
  }

  /** The plot of dot (`c`, `row`) of a tile entry. */
  function Dot(l: Layer, e: nat, row: nat, c: nat, x: nat): Plot
    requires row < 8 && c < 8
  {
    var index := Texel(l, RowBase(l, e, row), Flipped(HFlip(e), c));
    Plot(x, Colour(l, e, index), index)
  }

  /** What column `x` of line `y` shows under the scroll offset `hofs`. */
  function Pixel(l: Layer, hofs: nat, y: nat, x: nat): Plot {
    var u, v := (hofs + x) % Wide(l), y % High(l);
    Dot(l, Entry(l, u, v), v % 8, u % 8, x)
  }

  /** How many columns a line of `len` plots: the first tile is not cut. */
  function Columns(hofs: nat, len: nat): nat {
    if len == 0 || len >= 8 - hofs % 8 then len else 8 - hofs % 8
  }

  // ------------------------------------------ pointers

  /** A line of a tile lies inside a page. */
  lemma RowWithin(l: Layer, base: nat, k: nat)
    requires (base % 4 == 0 && k < 4) || (base % 8 == 0 && k < 8)
    ensures Vram.GpuOffset(l.regs, base + k) == Vram.GpuOffset(l.regs, base) + k
  {
    assert base % Vram.PAGE + k < Vram.PAGE;
    Vram.WithinPage(l.regs, base, k);
  }

  // ------------------------------------------ the blitter

  /** The row of map entries over line `y`. */
  function MapRow(l: Layer, y: nat): nat {
    var tmp := y % High(l) / 8;
    l.mapRam + tmp % 32 * 64 + if tmp > 31 then LowerScreens(l.screenSize) else 0
  }

  /** 512 << ScreenSize */
  function LowerScreens(size: nat): nat {
    if size == 0 then 512 else if size == 1 then 1024 else if size == 2 then 2048 else 4096
  }

  lemma Half(u: nat)
    requires u < 512
    ensures u / 8 > 31 <==> u / 256 == 1
    ensures u / 256 <= 1
  {
  }

  lemma EntryAddress(l: Layer, u: nat, y: nat)
    requires Placed(l) && u < Wide(l)
    ensures var v := y % High(l);
            MapRow(l, y) + u / 8 % 32 * 2 + (if u / 8 > 31 then 0x800 else 0)
            == l.mapRam + 0x800 * (u / 256 + v / 256 * (Wide(l) / 256)) + 64 * (v / 8 % 32) + 2 * (u / 8 % 32)
    ensures MapRow(l, y) % 64 == 0
  {
    Half(u);
    var v := y % High(l);
    Half(v);
    assert v / 8 > 31 ==> LowerScreens(l.screenSize) == 0x800 * (Wide(l) / 256);
  }

  /** A map entry lies inside a page. */
  lemma EntryWithin(l: Layer, row: nat, mapinfo: nat, k: nat)
    requires row % 64 == 0 && mapinfo == row + 2 * k
    ensures Vram.GpuOffset(l.regs, mapinfo + 1) == Vram.GpuOffset(l.regs, mapinfo) + 1
  {
    SameParity(mapinfo, 0, 32 * (row / 64) + k);
    hide Vram.GpuOffset;
    SameParity(mapinfo, mapinfo % Vram.PAGE, 0x2000 * (mapinfo / Vram.PAGE));
    Vram.WithinPage(l.regs, mapinfo, 1);
  }

  /** The map entry under the scroll position `xoff`. */
  method ReadEntry(l: Layer, row: nat, xoff: nat, ghost y: nat) returns (e: nat)
    requires Placed(l) && row == MapRow(l, y)
    ensures e == Entry(l, xoff % Wide(l), y % High(l))
  {
    hide Vram.GpuOffset, MapRow;
    var tmp := xoff % Wide(l) / 8;
    EntryAddress(l, xoff % Wide(l), y);
    var mapinfo := row + tmp % 32 * 2;
    if tmp > 31 { mapinfo := mapinfo + 32 * 32 * 2; }
    var p := Vram.GpuOffset(l.regs, mapinfo);
    e := l.lcd(p) + 0x100 * l.lcd(p + 1);
    EntryWithin(l, row, mapinfo, tmp % 32 + if tmp > 31 then 0x400 else 0);
  }

  lemma RowAligned(l: Layer, e: nat, row: nat)
    requires Placed(l) && row < 8
    ensures RowBase(l, e, row) % (if l.deep then 8 else 4) == 0
  {
    hide TileNum, VFlip;
    var t, r := TileNum(e), Flipped(VFlip(e), row);
    Eighths(l.tileRam, t, r);
  }

  lemma Eighths(base: nat, t: nat, r: nat)
    requires base % 0x4000 == 0
    ensures (base + (64 * t + 8 * r)) % 8 == 0 && (base + (32 * t + 4 * r)) % 4 == 0
  {
    var q := base / 0x4000;
    assert base + (64 * t + 8 * r) == 8 * (0x800 * q + 8 * t + r);
    assert base + (32 * t + 4 * r) == 4 * (0x1000 * q + 8 * t + r);
  }

  // ------------------------------------------ one tile

  /** Where the blitter stands: the column, the 16-bit scroll counter and what has
      been plotted. */
  datatype Pen = Pen(x: nat, xoff: nat, log: seq<Plot>)

  function Put(p: Pen, colour: nat, index: nat): Pen {
    Pen(p.x + 1, (p.xoff + 1) % 0x1_0000, p.log + [Plot(p.x, colour, index)])
  }

  /** The plots of `n` dots of a tile, from dot `c` and column `x` on. */
  function Dots(l: Layer, e: nat, row: nat, c: nat, x: nat, n: nat): (log: seq<Plot>)
    requires row < 8 && c + n <= 8
    ensures |log| == n
  {
    seq(n, j requires 0 <= j < n => Dot(l, e, row, c + j, x + j))
  }

  /** `n` dots of a tile plotted from `p` on. */
  function Ahead(l: Layer, e: nat, row: nat, p: Pen, n: nat): Pen
    requires row < 8 && p.xoff % 8 + n <= 8
  {
    Pen(p.x + n, (p.xoff + n) % 0x1_0000, p.log + Dots(l, e, row, p.xoff % 8, p.x, n))
  }

  lemma PutAhead(l: Layer, e: nat, row: nat, p: Pen, n: nat)
    requires row < 8 && p.xoff % 8 + n < 8
    ensures var d := Dot(l, e, row, p.xoff % 8 + n, p.x + n);
            Put(Ahead(l, e, row, p, n), d.colour, d.index) == Ahead(l, e, row, p, n + 1)
  {
    DotsGrow(l, e, row, p.xoff % 8, p.x, n);
    NextOffset(p.xoff, n);
    hide Dots;
  }

  lemma DotsGrow(l: Layer, e: nat, row: nat, c: nat, x: nat, n: nat)
    requires row < 8 && c + n < 8
    ensures Dots(l, e, row, c, x, n + 1) == Dots(l, e, row, c, x, n) + [Dot(l, e, row, c + n, x + n)]
  {
    hide Dot;
  }

  lemma NextOffset(xoff: nat, n: nat)
    ensures ((xoff + n) % 0x1_0000 + 1) % 0x1_0000 == (xoff + (n + 1)) % 0x1_0000
  {
  }

  /** The dot in a byte of a 16-colour tile. */
  function Nibble(low: bool, b: Vram.Byte): nat { if low then b % 16 else b / 16 }

  /** Where dot `c` is on a line of a 16-colour tile. */
  function Pointer(flip: bool, c: nat): int { if flip then 3 - c / 2 else c / 2 }

  predicate EvenDot(p: Pen, n: nat) { (p.xoff + n) % 2 == 0 }

  lemma Put16(l: Layer, e: nat, row: nat, p: Pen, n: nat, low: bool, b: Vram.Byte)
    requires Placed(l) && !l.deep && row < 8 && p.xoff % 8 + n < 8
    requires low == (EvenDot(p, n) != HFlip(e))
    requires b == l.lcd(Vram.GpuOffset(l.regs, RowBase(l, e, row)) + Pointer(HFlip(e), p.xoff % 8 + n))
    ensures Put(Ahead(l, e, row, p, n), 2 * (Nibble(low, b) + Palette(e) * 16), Nibble(low, b))
         == Ahead(l, e, row, p, n + 1)
  {
    hide Vram.GpuOffset, RowBase, HFlip, Palette, Nibble, Pointer, Dot, Ahead, Put;
    Parity(p.xoff, n);
    PutAhead(l, e, row, p, n);
    Dot16(l, e, row, p.xoff % 8 + n, p.x + n);
  }

  lemma Parity(xoff: nat, n: nat)
    ensures (xoff + n) % 2 == (xoff % 8 + n) % 2 == (xoff + n) % 0x1_0000 % 2
  {
    SameParity(xoff + n, xoff % 8 + n, xoff / 8 * 4);
    SameParity(xoff + n, (xoff + n) % 0x1_0000, (xoff + n) / 0x1_0000 * 0x8000);
  }

  lemma SameParity(a: nat, b: nat, k: nat)
    requires a == b + 2 * k
    ensures a % 2 == b % 2
  {
  }

  lemma Dot16(l: Layer, e: nat, row: nat, c: nat, x: nat)
    requires Placed(l) && !l.deep && row < 8 && c < 8
    ensures var b := l.lcd(Vram.GpuOffset(l.regs, RowBase(l, e, row)) + Pointer(HFlip(e), c));
            var index := Nibble((c % 2 == 0) != HFlip(e), b);
            Dot(l, e, row, c, x) == Plot(x, 2 * (index + Palette(e) * 16), index)
  {
    hide Vram.GpuOffset, RowBase, HFlip, Palette, Flipped, Pointer;
    Halves(HFlip(e), c);
    RowAligned(l, e, row);
    RowWithin(l, RowBase(l, e, row), Pointer(HFlip(e), c));
  }

  lemma Halves(flip: bool, c: nat)
    requires c < 8
    ensures 0 <= Flipped(flip, c) < 8 && Flipped(flip, c) / 2 == Pointer(flip, c) < 4
    ensures (Flipped(flip, c) % 2 == 0) == ((c % 2 == 0) != flip)
  {
  }

  lemma AheadNone(l: Layer, e: nat, row: nat, p: Pen)
    requires row < 8 && p.xoff < 0x1_0000
    ensures Ahead(l, e, row, p, 0) == p
  {
    hide Dot;
  }

  /** Dots and bytes alternate. */
  lemma Moves(l: Layer, e: nat, row: nat, p: Pen, n: nat, flip: bool)
    requires row < 8 && p.xoff % 8 + n <= 8
    ensures Ahead(l, e, row, p, n).x == p.x + n
    ensures var c := p.xoff % 8 + n; var even := Ahead(l, e, row, p, n).xoff % 2 == 0;
            && even == EvenDot(p, n) && EvenDot(p, n + 1) == !even
            && Pointer(flip, c + 1) == Pointer(flip, c) + if even then 0 else if flip then -1 else 1
  {
    hide Dots;
    Parity(p.xoff, n);
  }

  /** A flipped tile in 16 colours: two dots a byte, right to left, with the odd one alone
      when the line starts inside a byte. */
  method BlitFlipped(l: Layer, e: nat, start: int, p0: Pen, xfin: nat, ghost row: nat) returns (p: Pen)
    requires Placed(l) && !l.deep && row < 8 && HFlip(e)
    requires start == Vram.GpuOffset(l.regs, RowBase(l, e, row))
    requires p0.x <= xfin <= p0.x + 8 - p0.xoff % 8 && p0.xoff < 0x1_0000
    ensures p == Ahead(l, e, row, p0, xfin - p0.x)
  {
    AheadNone(l, e, row, p0);
    ghost var c, n := p0.xoff % 8, 0;
    var line := start + (3 - p0.xoff % 8 / 2);
    hide Vram.GpuOffset, RowBase, HFlip, Palette, Ahead, Pointer, Put, EvenDot;
    var tilePalette := Palette(e) * 16;
    p := p0;
    while p.x < xfin
      invariant n <= xfin - p0.x && p == Ahead(l, e, row, p0, n) && p.x == p0.x + n
      invariant p.x < xfin ==> line == start + Pointer(true, c + n)
    {
      var b := l.lcd(line);
      Moves(l, e, row, p0, n, true);
      if p.xoff % 2 == 0 {
        Put16(l, e, row, p0, n, false, b);
        p, n := Put(p, 2 * (b / 16 + tilePalette), b / 16), n + 1;
        Moves(l, e, row, p0, n, true);
      }
      if p.x < xfin {
        Put16(l, e, row, p0, n, true, b);
        p, n := Put(p, 2 * (b % 16 + tilePalette), b % 16), n + 1;
      }
      line := line - 1;
    }
  }

  /** The same, left to right. */
  method BlitPlain(l: Layer, e: nat, start: int, p0: Pen, xfin: nat, ghost row: nat) returns (p: Pen)
    requires Placed(l) && !l.deep && row < 8 && !HFlip(e)
    requires start == Vram.GpuOffset(l.regs, RowBase(l, e, row))
    requires p0.x <= xfin <= p0.x + 8 - p0.xoff % 8 && p0.xoff < 0x1_0000
    ensures p == Ahead(l, e, row, p0, xfin - p0.x)
  {
    AheadNone(l, e, row, p0);
    ghost var c, n := p0.xoff % 8, 0;
    var line := start + p0.xoff % 8 / 2;
    hide Vram.GpuOffset, RowBase, HFlip, Palette, Ahead, Pointer, Put, EvenDot;
    var tilePalette := Palette(e) * 16;
    p := p0;
    while p.x < xfin
      invariant n <= xfin - p0.x && p == Ahead(l, e, row, p0, n) && p.x == p0.x + n
      invariant p.x < xfin ==> line == start + Pointer(false, c + n)
    {
      var b := l.lcd(line);
      Moves(l, e, row, p0, n, false);
      if p.xoff % 2 == 0 {
        Put16(l, e, row, p0, n, true, b);
        p, n := Put(p, 2 * (b % 16 + tilePalette), b % 16), n + 1;
        Moves(l, e, row, p0, n, false);
      }
      if p.x < xfin {
        Put16(l, e, row, p0, n, false, b);
        p, n := Put(p, 2 * (b / 16 + tilePalette), b / 16), n + 1;
      }
      line := line + 1;
    }
  }

  /** One tile of the 16-colour path. */
  method BlitTile16(l: Layer, e: nat, yoff: nat, p0: Pen, xfin: nat, ghost row: nat) returns (p: Pen)
    requires Placed(l) && !l.deep && row < 8 && yoff == 4 * row
    requires p0.x <= xfin <= p0.x + 8 - p0.xoff % 8 && p0.xoff < 0x1_0000
    ensures p == Ahead(l, e, row, p0, xfin - p0.x)
  {
    var base := l.tileRam + (TileNum(e) * 0x20 + if VFlip(e) then 7 * 4 - yoff else yoff);
    assert base == RowBase(l, e, row) by { hide TileNum, VFlip; }
    hide Ahead, Vram.GpuOffset, RowBase;
    if HFlip(e) {
      p := BlitFlipped(l, e, Vram.GpuOffset(l.regs, base), p0, xfin, row);
    } else {
      p := BlitPlain(l, e, Vram.GpuOffset(l.regs, base), p0, xfin, row);
    }
  }

  lemma Put256(l: Layer, e: nat, row: nat, p: Pen, n: nat)
    requires Placed(l) && l.deep && row < 8 && p.xoff % 8 + n < 8
    ensures var start := Vram.GpuOffset(l.regs, RowBase(l, e, row));
            var index := l.lcd(start + Flipped(HFlip(e), p.xoff % 8 + n));
            Put(Ahead(l, e, row, p, n), (if l.ext then Palette(e) * 0x200 else 0) + 2 * index, index)
            == Ahead(l, e, row, p, n + 1)
  {
    PutAhead(l, e, row, p, n);
    RowAligned(l, e, row);
    RowWithin(l, RowBase(l, e, row), Flipped(HFlip(e), p.xoff % 8 + n));
    hide Vram.GpuOffset, RowBase, HFlip, Palette, Ahead, Put;
  }

  /** One tile of the 256-colour path. */
  method BlitTile256(l: Layer, e: nat, yoff: nat, p0: Pen, xfin: nat, ghost row: nat) returns (p: Pen)
    requires Placed(l) && l.deep && row < 8 && yoff == 8 * row
    requires p0.x <= xfin <= p0.x + 8 - p0.xoff % 8 && p0.xoff < 0x1_0000
    ensures p == Ahead(l, e, row, p0, xfin - p0.x)
  {
    var base := l.tileRam + (TileNum(e) * 0x40 + if VFlip(e) then 7 * 8 - yoff else yoff);
    assert base == RowBase(l, e, row) by { hide TileNum, VFlip; }
    hide Ahead, Vram.GpuOffset, RowBase;
    p := BlitRow256(l, e, Vram.GpuOffset(l.regs, base), p0, xfin, row);
  }

  method BlitRow256(l: Layer, e: nat, start: int, p0: Pen, xfin: nat, ghost row: nat) returns (p: Pen)
    requires Placed(l) && l.deep && row < 8
    requires start == Vram.GpuOffset(l.regs, RowBase(l, e, row))
    requires p0.x <= xfin <= p0.x + 8 - p0.xoff % 8 && p0.xoff < 0x1_0000
    ensures p == Ahead(l, e, row, p0, xfin - p0.x)
  {
    AheadNone(l, e, row, p0);
    hide Ahead, Vram.GpuOffset, RowBase, HFlip, Palette;
    var tilePal := if l.ext then Palette(e) * 0x200 else 0;
    ghost var c, n := p0.xoff % 8, 0;
    var line, dir := start + p0.xoff % 8, 1;
    if HFlip(e) {
      line, dir := start + (7 - p0.xoff % 8), -1;
    }
    p := p0;
    while p.x < xfin
      invariant n <= xfin - p0.x && p == Ahead(l, e, row, p0, n) && p.x == p0.x + n
      invariant line == start + if HFlip(e) then 7 - (c + n) else c + n
      invariant dir == if HFlip(e) then -1 else 1
    {
      var index := l.lcd(line);
      Put256(l, e, row, p0, n);
      p, n := Put(p, tilePal + 2 * index, index), n + 1;
      line := line + dir;
    }
  }

  // ------------------------------------------ a line

  /** The first `n` columns of a line, as their pixels mean them. */
  function Line(l: Layer, hofs: nat, y: nat, n: nat): Pen {
    Pen(n, (hofs + n) % 0x1_0000, seq(n, x requires 0 <= x => Pixel(l, hofs, y, x)))
  }

  /** Neighbouring dots of the background in one tile. */
  lemma SameTile(l: Layer, a: nat, k: nat)
    requires a % 8 + k < 8
    ensures var u, w := a % Wide(l), (a + k) % Wide(l);
            w / 8 == u / 8 && w / 256 == u / 256 && u % 8 == a % 8 && w % 8 == a % 8 + k
  {
    var m := Wide(l);
    var u := a % m;
    NestedRemainder(a, m, 8, m / 8);
    Aligned(m, u, k);
    Division(a, m);
    QuotientIs(a + k, m, a / m);
    QuotientIs(u + k, 8, u / 8);
    QuotientIs(u / 8, 32, u / 256);
  }

  lemma Aligned(m: nat, u: nat, k: nat)
    requires (m == 256 || m == 512) && u < m && u % 8 + k < 8
    ensures u + k < m && (u + k) / 256 == u / 256
  {
    var t := u / 8;
    assert u == 8 * t + u % 8 && t < m / 8;
    assert u / 256 == t / 32 == (u + k) / 256;
  }

  lemma TilePixel(l: Layer, hofs: nat, y: nat, x: nat, k: nat)
    requires (hofs + x) % 8 + k < 8
    ensures Pixel(l, hofs, y, x + k)
         == Dot(l, Entry(l, (hofs + x) % Wide(l), y % High(l)), y % 8, (hofs + x) % 8 + k, x + k)
  {
    SameTile(l, hofs + x, k);
    NestedRemainder(y, High(l), 8, High(l) / 8);
    assert hofs + (x + k) == hofs + x + k;
    SameEntry(l, (hofs + x) % Wide(l), (hofs + x + k) % Wide(l), y % High(l));
    hide Dot, Wide, High, Entry;
  }

  lemma SameEntry(l: Layer, u: nat, w: nat, v: nat)
    requires u / 8 == w / 8 && u / 256 == w / 256
    ensures Entry(l, u, v) == Entry(l, w, v)
  {
    hide ByteAt, Wide;
  }

  /** The dots of a tile, plotted one after the other, are pixels of the line. */
  lemma TileOfLine(l: Layer, hofs: nat, y: nat, x: nat, n: nat)
    requires (hofs + x) % 8 + n <= 8
    ensures var p := Line(l, hofs, y, x); var e := Entry(l, p.xoff % Wide(l), y % High(l));
            p.xoff % 8 == (hofs + x) % 8 && Ahead(l, e, y % 8, p, n) == Line(l, hofs, y, x + n)
  {
    var p := Line(l, hofs, y, x);
    NestedRemainder(hofs + x, 0x1_0000, 8, 0x2000);
    NestedRemainder(hofs + x, 0x1_0000, Wide(l), 0x1_0000 / Wide(l));
    Counter(hofs + x, n);
    PixelsOfTile(l, hofs, y, x, n);
    hide Pixel, Dot, Entry, Dots;
  }

  lemma PixelsOfTile(l: Layer, hofs: nat, y: nat, x: nat, n: nat)
    requires (hofs + x) % 8 + n <= 8
    ensures var e := Entry(l, (hofs + x) % Wide(l), y % High(l));
            Line(l, hofs, y, x).log + Dots(l, e, y % 8, (hofs + x) % 8, x, n) == Line(l, hofs, y, x + n).log
  {
    hide Pixel, Dot, Entry;
    if n > 0 {
      PixelsOfTile(l, hofs, y, x, n - 1);
      TilePixel(l, hofs, y, x, n - 1);
      DotsGrow(l, Entry(l, (hofs + x) % Wide(l), y % High(l)), y % 8, (hofs + x) % 8, x, n - 1);
      LineGrows(l, hofs, y, x + (n - 1));
      hide Line, Dots;
    }
  }

  lemma LineGrows(l: Layer, hofs: nat, y: nat, n: nat)
    ensures Line(l, hofs, y, n + 1).log == Line(l, hofs, y, n).log + [Pixel(l, hofs, y, n)]
  {
    hide Pixel;
  }

  lemma Counter(a: nat, n: nat)
    ensures (a % 0x1_0000 + n) % 0x1_0000 == (a + n) % 0x1_0000
  {
  }

  /** The tiles of a line; 16 and 256 colours differ in the blitter only. */
  method BlitLine(l: Layer, row: nat, hofs: nat, y: nat, len: nat) returns (p: Pen)
    requires Placed(l) && hofs < 0x1_0000 && len + 7 < 0x1_0000 && row == MapRow(l, y)
    ensures p == Line(l, hofs, y, Columns(hofs, len))
  {
    NestedRemainder(hofs, 0x1_0000, 8, 0x2000);
    var xfin: nat := 8 - hofs % 8;
    p := Pen(0, hofs, []);
    assert p == Line(l, hofs, y, 0);
    assert Between(hofs, len, 0, xfin);
    hide MapRow, Line, Ahead, Entry, Pixel, Wide, High, Columns, Between;
    while p.x < len
      invariant p == Line(l, hofs, y, p.x)
      invariant Between(hofs, len, p.x, xfin)
    {
      ghost var x := p.x;
      var e := ReadEntry(l, row, p.xoff, y);
      NextTile(hofs, len, x, xfin);
      TileOfLine(l, hofs, y, x, xfin - x);
      LineAt(l, hofs, y, xfin);
      if l.deep {
        p := BlitTile256(l, e, y % 8 * 8, p, xfin, y % 8);
      } else {
        p := BlitTile16(l, e, y % 8 * 4, p, xfin, y % 8);
      }
      xfin := if p.x + 8 < len then p.x + 8 else len;
    }
    NextTile(hofs, len, p.x, xfin);
  }

  /** renderline_textBG.  Line lengths for which the 16-bit x + 8 would wrap do not
      occur: the longest is 512. */
  method RenderLine(l: Layer, hofs: nat, y: nat, len: nat) returns (log: seq<Plot>)
    requires Placed(l) && hofs < 0x1_0000 && len + 7 < 0x1_0000
    ensures l.deep && l.ext && !l.extPal ==> log == []
    ensures !(l.deep && l.ext && !l.extPal) ==>
              (|log| == len <==> len == 0 || len >= 8 - hofs % 8) && (0 < len < 8 - hofs % 8 ==> |log| == 8 - hofs % 8)
    ensures forall x: nat :: x < |log| ==> log[x] == Pixel(l, hofs, y, x)
  {
    var tmp := y % High(l) / 8;
    var row := l.mapRam + tmp % 32 * 64;
    if tmp > 31 { row := row + LowerScreens(l.screenSize); }
    assert row == MapRow(l, y);
    if l.deep && l.ext && !l.extPal { return []; }
    ColumnsPlotted(hofs, len);
    hide MapRow, Line, Pixel, Columns;
    var p := BlitLine(l, row, hofs, y, len);
    LineAt(l, hofs, y, Columns(hofs, len));
    log := p.log;
  }

  lemma ColumnsPlotted(hofs: nat, len: nat)
    ensures Columns(hofs, len) == len <==> len == 0 || len >= 8 - hofs % 8
    ensures 0 < len < 8 - hofs % 8 ==> Columns(hofs, len) == 8 - hofs % 8
  {
  }

  lemma LineAt(l: Layer, hofs: nat, y: nat, n: nat)
    ensures Line(l, hofs, y, n).x == n && Line(l, hofs, y, n).xoff < 0x1_0000
    ensures var log := Line(l, hofs, y, n).log; |log| == n && forall x: nat :: x < n ==> log[x] == Pixel(l, hofs, y, x)
  {
    hide Pixel;
  }

  lemma NextTile(hofs: nat, len: nat, x: nat, xfin: nat)
    requires Between(hofs, len, x, xfin)
    ensures x < len ==> x < xfin && (hofs + x) % 8 + (xfin - x) <= 8
    ensures x < len ==> Between(hofs, len, xfin, if xfin + 8 < len then xfin + 8 else len)
    ensures x >= len ==> x == Columns(hofs, len)
  {
    if x < len {
      QuotientIs(hofs + xfin, 8, (hofs + x) / 8 + if (hofs + x) % 8 + (xfin - x) == 8 then 1 else 0);
    }
  }

  /** Where the outer loop may stand: at a tile boundary, or at the end. */
  predicate Between(hofs: nat, len: nat, x: nat, xfin: nat) {
    && (x == 0 ==> xfin == 8 - hofs % 8)
    && (x < len ==> x < xfin && (hofs + x) % 8 + (xfin - x) <= 8)
    && (x < len && x > 0 ==> (hofs + x) % 8 == 0 && xfin == if x + 8 < len then x + 8 else len)
    && (x >= len ==> x == Columns(hofs, len))
  }

  /** The background repeats: scrolling by its size changes nothing. */
  lemma BackgroundWraps(l: Layer, hofs: nat, y: nat, x: nat, j: nat, k: nat)
    ensures Pixel(l, hofs + j * Wide(l), y + k * High(l), x) == Pixel(l, hofs, y, x)
  {
    Wraps(hofs + x, Wide(l), j);
    Wraps(y, High(l), k);
    assert hofs + j * Wide(l) + x == hofs + x + j * Wide(l);
    hide Dot, Entry, Wide, High;
  }
}
