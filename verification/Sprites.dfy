/**
 The sprite renderer (source/GPU.cpp compute_sprite_vars, render_sprite_* and
 _spriteRender): 128 sprites drawn one after the other into the buffers of a line,
 against what each column should show.
 */
module Sprites {
  import Vram

  const COLUMNS := 256
  const SPRITES := 128
  const NONE := 0xFF              // sprPrio before any sprite

  /** OAMAttributes.  `bit9` disables a plain sprite and doubles the field of a
      rotated one; `x` is the signed 9-bit field. */
  datatype Sprite = Sprite(y: int, rot: bool, bit9: bool, mode: int, deep: bool, shape: int, x: int, index: int,
    hflip: bool, vflip: bool, size: int, tile: int, priority: int, palette: int, attr3: int)

  predicate Fits(s: Sprite) {
    && 0 <= s.y < 256 && 0 <= s.mode < 4 && 0 <= s.shape < 4 && -256 <= s.x < 256 && 0 <= s.index < 8
    && 0 <= s.size < 4 && 0 <= s.tile < 1024 && 0 <= s.priority < 4 && 0 <= s.palette < 16
  }

  type Oam = o: seq<Sprite> | |o| == SPRITES && forall i :: 0 <= i < SPRITES ==> Fits(o[i])
    witness seq(SPRITES, _ => Sprite(0, false, true, 0, false, 0, 0, 0, false, false, 0, 0, 0, 0, 0))

  /** What the registers and the memories hold while a line is drawn. */
  datatype Memory = Memory(
    regs: Vram.Regs,                // the bank registers, for the page tables
    lcd: int -> Vram.Byte,          // the display memory
    sprMem: nat,                    // where the OBJ area starts
    linear: bool,                   // SPRITE_1D, not SPRITE_2D
    unit: nat,                      // bytes a tile number stands for, 1 << sprBoundary
    bmpUnit: nat,                   // the same for bitmaps, 1 << sprBMPBoundary
    bmpLinear: bool,                // OBJ_BMP_mapping
    bmpWide: bool,                  // OBJ_BMP_2D_dim
    extPal: bool,                   // ExOBJPalette_Enable
    colour: (bool, int) -> int,     // the OBJ palettes, extended or not, by byte offset
    backdrop: int,
    numbers: int -> int)            // sprNum of the line before, which nothing clears

  /** The part of GPU_setVideoProp that sets up sprites. */
  predicate Configured(m: Memory) { !m.linear ==> m.unit == 32 }

  /** The fields of DISPCNT that sprites are drawn by; the unit of bitmaps is fixed in
      engine B. */
  function SetVideoProp(m: Memory, engineB: bool, cnt: nat): Memory {
    var linear := cnt / 0x10 % 2 == 1;
    m.(linear := linear,
       unit := if linear then [32, 64, 128, 256][cnt / 0x10_0000 % 4] else 32,
       bmpUnit := if cnt / 0x40_0000 % 2 == 1 && !engineB then 256 else 128,
       bmpLinear := cnt / 0x40 % 2 == 1,
       bmpWide := cnt / 0x20 % 2 == 1,
       extPal := cnt / 0x8000_0000 % 2 == 1)
  }

  /** A column of the line buffers: spr, sprAlpha, sprType, sprPrio, sprWin, sprNum. */
  datatype Cell = Cell(colour: int, alpha: int, kind: int, prio: int, win: bool, num: int)

  function Clear(m: Memory, c: int): Cell { Cell(m.backdrop, 0, 0, NONE, false, m.numbers(c)) }

  // ------------------------------------------ the meaning of a sprite

  /** sprSizeTab */
  function Wide(s: Sprite): (w: int)
    ensures w == 8 || w == 16 || w == 32 || w == 64
  {
    if s.shape == 0 then (if s.size == 0 then 8 else if s.size == 1 then 16 else if s.size == 2 then 32 else 64)
    else if s.shape == 1 then (if s.size == 0 then 16 else if s.size <= 2 then 32 else 64)
    else if s.shape == 2 then (if s.size <= 1 then 8 else if s.size == 2 then 16 else 32)
    else 8
  }

  function High(s: Sprite): (h: int)
    ensures h == 8 || h == 16 || h == 32 || h == 64
  {
    Wide(s.(shape := if s.shape == 1 then 2 else if s.shape == 2 then 1 else s.shape))
  }

  /** The field a sprite may cover on the screen. */
  function FieldX(s: Sprite): int { if s.rot && s.bit9 then 2 * Wide(s) else Wide(s) }
  function FieldY(s: Sprite): int { if s.rot && s.bit9 then 2 * High(s) else High(s) }

  function Row(s: Sprite, l: int): int { (l - s.y) % 256 }

  predicate OnLine(s: Sprite, l: int) { (s.rot || !s.bit9) && Row(s, l) < FieldY(s) }

  predicate Over(s: Sprite, c: int) { 0 <= c - s.x < FieldX(s) }

  /** The parameters of a rotated sprite: dx, dmx, dy and dmy, spread over four
      entries of the table. */
  function Param(oam: Oam, s: Sprite, k: int): int
    requires Fits(s) && 0 <= k < 4
  {
    oam[(s.index + (if s.hflip then 8 else 0) + (if s.vflip then 16 else 0)) * 4 + k].attr3
  }

  /** Where a column falls in a rotated sprite, in 1/256ths: the rotation is about
      the centre of the field. */
  function Turned(side: int, u: int, du: int, v: int, dv: int): int { side * 128 + u * du + v * dv }

  function RealX(oam: Oam, s: Sprite, l: int, c: int): int
    requires Fits(s)
  {
    Turned(Wide(s), c - s.x - FieldX(s) / 2, Param(oam, s, 0), Row(s, l) - FieldY(s) / 2, Param(oam, s, 1))
  }

  function RealY(oam: Oam, s: Sprite, l: int, c: int): int
    requires Fits(s)
  {
    Turned(High(s), c - s.x - FieldX(s) / 2, Param(oam, s, 2), Row(s, l) - FieldY(s) / 2, Param(oam, s, 3))
  }

  /** The texel of a plain sprite. */
  function TexX(s: Sprite, c: int): int { if s.hflip then Wide(s) - 1 - (c - s.x) else c - s.x }
  function TexY(s: Sprite, l: int): int { if s.vflip then High(s) - 1 - Row(s, l) else Row(s, l) }

  // ------------------------------------------ the texels

  /** MMU_gpu_map of a 32-bit address. */
  function Host(m: Memory, addr: int): int { Vram.GpuOffset(m.regs, addr % 0x1_0000_0000) }

  /** A byte reached from a mapped address by pointer arithmetic. */
  function Through(m: Memory, addr: int, ofs: int): Vram.Byte { m.lcd(Host(m, addr) + ofs) }

  function Word(m: Memory, addr: int): int { m.lcd(Host(m, addr)) + 0x100 * m.lcd(Host(m, addr) + 1) }

  function TileBytes(s: Sprite): int { if s.deep then 64 else 32 }

  /** Tiles in a row of the picture: its own width, or that of a 1 KB row. */
  function Pitch(m: Memory, s: Sprite): int { if m.linear then Wide(s) / 8 else 1024 / TileBytes(s) }

  function TileBase(m: Memory, s: Sprite): int { m.sprMem + s.tile * m.unit }

  /** A texel lies in a tile of its row of tiles, on a line of the tile. */
  function RowPart(m: Memory, s: Sprite, y: int): int {
    TileBytes(s) * (y / 8 * Pitch(m, s)) + TileBytes(s) / 8 * (y % 8)
  }

  function ColumnPart(s: Sprite, x: int): int { TileBytes(s) * (x / 8) + if s.deep then x % 8 else x % 8 / 2 }

  /** The palette entry in a byte: in 16 colours the left texel is the low half. */
  function EntryOf(s: Sprite, b: Vram.Byte, x: int): int {
    if s.deep then b else if x % 2 == 1 then b / 16 else b % 16
  }

  /** Where a bitmap starts: at a unit, or at an 8 by 8 cell of a wide bitmap. */
  function BmpOrigin(m: Memory, s: Sprite): int {
    if m.bmpLinear then m.sprMem + s.tile * m.bmpUnit
    else
      var cells := BmpPitch(m, s) / 8;
      m.sprMem + 2 * (s.tile / cells * (8 * BmpPitch(m, s)) + s.tile % cells * 8)
  }

  /** Dots from one row of a bitmap to the next. */
  function BmpPitch(m: Memory, s: Sprite): int {
    if m.bmpLinear then Wide(s) else if m.bmpWide then 256 else 128
  }

  /** The texel of a plain sprite.  A picture maps every byte; the object window maps
      the row and moves a pointer. */
  function PlainTexel(m: Memory, s: Sprite, x: int, y: int): int {
    if s.mode == 3 then Word(m, BmpOrigin(m, s) + 2 * (y * BmpPitch(m, s) + x))
    else if s.mode == 2 then EntryOf(s, Through(m, TileBase(m, s) + RowPart(m, s, y), ColumnPart(s, x)), x)
    else EntryOf(s, Through(m, TileBase(m, s) + RowPart(m, s, y) + ColumnPart(s, x), 0), x)
  }

  /** The rows of a rotated bitmap are a sprite wide, save in the wide layout. */
  function TurnedPitch(m: Memory, s: Sprite): int { if m.bmpWide then BmpPitch(m, s) else Wide(s) }

  /** The texel of a rotated sprite, by a pointer from its first tile. */
  function TurnedTexel(m: Memory, s: Sprite, x: int, y: int): int {
    if !s.deep && s.mode == 3 then Word(m, BmpOrigin(m, s) + 2 * (y * TurnedPitch(m, s) + x))
    else EntryOf(s, Through(m, TileBase(m, s), RowPart(m, s, y) + ColumnPart(s, x)), x)
  }

  /** A pointer reads what mapping the address would, up to the end of the page. */
  lemma PointerInPage(m: Memory, addr: nat, ofs: nat)
    requires addr % Vram.PAGE + ofs < Vram.PAGE && addr + ofs < 0x1_0000_0000
    ensures Through(m, addr, ofs) == Through(m, addr + ofs, 0)
  {
    hide Vram.GpuOffset;
    Unwrapped(addr);
    Unwrapped(addr + ofs);
    Vram.WithinPage(m.regs, addr, ofs);
  }

  lemma Unwrapped(addr: nat)
    requires addr < 0x1_0000_0000
    ensures addr % 0x1_0000_0000 == addr
  {
  }

  /** Rotated or not, a bitmap has the same dots, exactly unless it is laid out 128
      dots wide and the dot is below its first row. */
  lemma TurnedBitmapIff(m: Memory, s: Sprite, x: int, y: int)
    requires InSprite(s, x, y)
    ensures y * TurnedPitch(m, s) + x == y * BmpPitch(m, s) + x <==> y == 0 || m.bmpLinear || m.bmpWide
  {
    if y > 0 && !m.bmpLinear && !m.bmpWide { Product(y, Wide(s)); }
  }

  lemma Product(y: int, w: int)
    requires 0 < y && w <= 64
    ensures y * w <= y * 64
  {
    assert y * (64 - w) >= 0;
  }

  /** The colour of a palette entry. */
  function Colour(m: Memory, s: Sprite, entry: int): int {
    if !s.deep then m.colour(false, 32 * s.palette + 2 * entry)
    else if m.extPal then m.colour(true, 0x200 * s.palette + 2 * entry)
    else m.colour(false, 2 * entry)
  }

  // ------------------------------------------ what a sprite offers

  /** What a sprite has for a column: nothing, a dot of the object window (which a
      rotated sprite leaves to sprites in front of it), or a colour, with which only
      some loops note the number of the sprite. */
  datatype Offer = Nothing | Shade(strict: bool) | Pixel(colour: int, alpha: int, kind: int, noted: bool)

  predicate HighBit(t: int) { t / 0x8000 % 2 == 1 }

  function PlainOffer(m: Memory, s: Sprite, t: int): Offer {
    if s.mode == 2 then (if t != 0 then Shade(false) else Nothing)
    else if s.mode == 3 then (if s.palette != 0 && HighBit(t) then Pixel(t, s.palette + 1, 3, true) else Nothing)
    else if t > 0 then Pixel(Colour(m, s, t), 0xFF, if s.mode == 1 then 1 else 0, s.deep) else Nothing
  }

  /** In 256 colours a rotated window sprite is drawn like any other. */
  function TurnedOffer(m: Memory, s: Sprite, t: int): Offer {
    if s.deep then (if t != 0 then Pixel(Colour(m, s, t), 0xFF, s.mode, false) else Nothing)
    else if s.mode == 3 then (if s.palette != 0 && HighBit(t) then Pixel(t, s.palette, s.mode, false) else Nothing)
    else if t == 0 then Nothing
    else if s.mode == 2 then Shade(true) else Pixel(Colour(m, s, t), 0xFF, s.mode, false)
  }

  predicate InSprite(s: Sprite, x: int, y: int) { 0 <= x < Wide(s) && 0 <= y < High(s) }

  /** The texel under a column, if the sprite has one there. */
  datatype Found = Missing | Texel(value: int)

  function TexelAt(m: Memory, oam: Oam, i: nat, l: int, c: int): Found
    requires i < SPRITES
  {
    var s := oam[i];
    if !OnLine(s, l) || !Over(s, c) then Missing
    else if !s.rot then Texel(PlainTexel(m, s, TexX(s, c), TexY(s, l)))
    else
      var x, y := RealX(oam, s, l, c) / 0x100, RealY(oam, s, l, c) / 0x100;
      if InSprite(s, x, y) then Texel(TurnedTexel(m, s, x, y)) else Missing
  }

  function OfferAt(m: Memory, oam: Oam, i: nat, l: int, c: int): Offer
    requires i < SPRITES
  {
    match TexelAt(m, oam, i, l, c)
    case Missing => Nothing
    case Texel(t) => if oam[i].rot then TurnedOffer(m, oam[i], t) else PlainOffer(m, oam[i], t)
  }

  /** An opaque dot of a window sprite belongs to the object window exactly unless the
      sprite is rotated and has 256 colours; then it is a picture. */
  lemma WindowSpriteIff(m: Memory, oam: Oam, i: nat, l: int, c: int)
    requires i < SPRITES
    ensures var s, t, offer := oam[i], TexelAt(m, oam, i, l, c), OfferAt(m, oam, i, l, c);
            s.mode == 2 && t.Texel? && t.value > 0 ==>
              (offer.Shade? <==> !(s.rot && s.deep)) && (offer.Pixel? <==> s.rot && s.deep)
  {
    hide TexelAt;
  }

  /** A plain sprite is read inside its own texels only. */
  lemma TexelInside(s: Sprite, l: int, c: int)
    requires !s.rot && OnLine(s, l) && Over(s, c)
    ensures InSprite(s, TexX(s, c), TexY(s, l))
  {
  }

  // ------------------------------------------ the meaning of a column

  function Put(cell: Cell, i: nat, prio: int, offer: Offer): Cell {
    match offer
    case Nothing => cell
    case Shade(strict) => if strict && prio >= cell.prio then cell else cell.(win := true)
    case Pixel(colour, alpha, kind, noted) =>
      if prio < cell.prio then Cell(colour, alpha, kind, prio, cell.win, if noted then i else cell.num) else cell
  }

  /** A column after the first `n` sprites. */
  function Column(m: Memory, oam: Oam, l: int, c: int, n: nat): Cell
    requires n <= SPRITES
  {
    if n == 0 then Clear(m, c)
    else Put(Column(m, oam, l, c, n - 1), n - 1, oam[n - 1].priority, OfferAt(m, oam, n - 1, l, c))
  }

  /** Sprite `i` is the first by priority, then by its place in the table, of the
      sprites with a colour for the column. */
  predicate Front(m: Memory, oam: Oam, l: int, c: int, n: nat, i: nat)
    requires n <= SPRITES
  {
    && i < n && OfferAt(m, oam, i, l, c).Pixel?
    && forall j: nat :: j < n && OfferAt(m, oam, j, l, c).Pixel? ==>
         oam[i].priority < oam[j].priority || (oam[i].priority == oam[j].priority && i <= j)
  }

  /** The number is that of the sprite shown only where its loop notes it; elsewhere it
      is left from a sprite behind it or from an earlier line. */
  predicate Holds(cell: Cell, offer: Offer, prio: int, i: nat)
    requires offer.Pixel?
  {
    && cell.colour == offer.colour && cell.alpha == offer.alpha && cell.kind == offer.kind && cell.prio == prio
    && (offer.noted ==> cell.num == i)
  }

  /** What a column should hold after `n` sprites. */
  ghost predicate Shows(m: Memory, oam: Oam, l: int, c: int, n: nat, cell: Cell)
    requires n <= SPRITES
  {
    if cell.prio == NONE then
      (forall j: nat :: j < n ==> !OfferAt(m, oam, j, l, c).Pixel?) && cell == Clear(m, c).(win := cell.win)
    else
      exists i: nat :: Front(m, oam, l, c, n, i) && Holds(cell, OfferAt(m, oam, i, l, c), oam[i].priority, i)
  }

  /** Drawing in table order with a strict comparison leaves the front sprite. */
  lemma {:induction false} ColumnShowsFront(m: Memory, oam: Oam, l: int, c: int, n: nat)
    requires n <= SPRITES
    ensures Shows(m, oam, l, c, n, Column(m, oam, l, c, n))
  {
    hide OfferAt;
    if n > 0 {
      ColumnShowsFront(m, oam, l, c, n - 1);
      PutShowsFront(m, oam, l, c, n - 1, Column(m, oam, l, c, n - 1));
      hide Shows;
    }
  }

  lemma PutShowsFront(m: Memory, oam: Oam, l: int, c: int, n: nat, was: Cell)
    requires n < SPRITES && Shows(m, oam, l, c, n, was)
    ensures Shows(m, oam, l, c, n + 1, Put(was, n, oam[n].priority, OfferAt(m, oam, n, l, c)))
  {
    var cell := Put(was, n, oam[n].priority, OfferAt(m, oam, n, l, c));
    hide OfferAt;
    if was.prio == NONE {
      assert OfferAt(m, oam, n, l, c).Pixel? ==> Front(m, oam, l, c, n + 1, n);
    } else {
      var i: nat :| Front(m, oam, l, c, n, i) && Holds(was, OfferAt(m, oam, i, l, c), oam[i].priority, i);
      FrontMoves(m, oam, l, c, n, i);
      hide Front;
      var offer := OfferAt(m, oam, n, l, c);
      var j := if offer.Pixel? && oam[n].priority < oam[i].priority then n else i;
      assert Front(m, oam, l, c, n + 1, j) && Holds(cell, OfferAt(m, oam, j, l, c), oam[j].priority, j);
    }
  }

  /** One more sprite is the front one, or leaves it where it was. */
  lemma FrontMoves(m: Memory, oam: Oam, l: int, c: int, n: nat, i: nat)
    requires i <= n < SPRITES
    ensures Front(m, oam, l, c, n, i) ==>
              Front(m, oam, l, c, n + 1,
                    if OfferAt(m, oam, n, l, c).Pixel? && oam[n].priority < oam[i].priority then n else i)
  {
    hide OfferAt;
  }

  /** The object window: any dot of a plain window sprite, and of a rotated one where
      it is in front of the sprites drawn before it. */
  lemma {:induction false} ColumnInWindow(m: Memory, oam: Oam, l: int, c: int, n: nat)
    requires n <= SPRITES
    ensures Column(m, oam, l, c, n).win <==>
            exists i: nat :: i < n && OfferAt(m, oam, i, l, c).Shade? &&
              (OfferAt(m, oam, i, l, c).strict ==> oam[i].priority < Column(m, oam, l, c, i).prio)
  {
    hide OfferAt;
    if n > 0 {
      ColumnInWindow(m, oam, l, c, n - 1);
    }
  }
}
