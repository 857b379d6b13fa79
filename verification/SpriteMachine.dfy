/**
 The sprite renderer as the source runs it: clipping into a range of columns, then
 loops over that range which write the line buffers in place.
 */
module SpriteMachine {
  import opened Sprites

  /** The texel after `k` steps in direction `xdir`. */
  function Walk(x: int, xdir: int, k: int): int { if xdir == 1 then x + k else x - k }

  /** compute_sprite_vars: the columns [sprX, sprX + lg) are those of the screen that
      the sprite covers, and the walk from `x` follows its texels. */
  method ComputeSpriteVars(s: Sprite, l: int) returns (drawn: bool, sprX: int, x: int, y: int, lg: int, xdir: int)
    requires Fits(s) && !s.rot && !s.bit9
    ensures drawn <==> OnLine(s, l) && exists c :: 0 <= c < COLUMNS && Over(s, c)
    ensures drawn ==> forall c :: sprX <= c < sprX + lg <==> 0 <= c < COLUMNS && Over(s, c)
    ensures drawn ==> 0 <= sprX && 0 <= lg && sprX + lg <= COLUMNS && (xdir == 1 || xdir == -1)
    ensures drawn ==> y == TexY(s, l) && forall c :: sprX <= c < sprX + lg ==> Walk(x, xdir, c - sprX) == TexX(s, c)
  {
    hide Wide, High;
    x, xdir := 0, 1;
    sprX := s.x;
    lg := Wide(s);
    y := (l - s.y) % 256;
    drawn := false;
    if y >= High(s) { return; }
    if sprX == 256 || sprX + Wide(s) <= 0 { return; }
    assert Over(s, if s.x < 0 then 0 else s.x);
    if sprX < 0 {
      lg := lg + sprX;
      x := -sprX;
      sprX := 0;
    }
    if sprX + Wide(s) >= 256 {
      lg := 256 - sprX;
    }
    if s.vflip {
      y := High(s) - y - 1;
    }
    if s.hflip {
      x := Wide(s) - x - 1;
      xdir := -1;
    } else {
      xdir := 1;
    }
    drawn := true;
  }

  // ------------------------------------------ addresses

  /** The shifts and masks of the source are tiles, rows and columns. */
  lemma TileOffsets(m: Memory, s: Sprite, x: int, y: int)
    ensures ColumnPart(s, x) == if s.deep then x % 8 + x / 8 * 8 * 8 else x / 2 % 4 + x / 2 / 4 * 4 * 8
    ensures var line := if s.deep then 8 else 4;
            RowPart(m, s, y) == (if m.linear then y / 8 * Wide(s) * line else y / 8 * 1024) + y % 8 * line
  {
    Tiles(y / 8, Wide(s) / 8);
    hide Wide;
  }

  lemma Tiles(k: int, q: int)
    ensures 64 * (k * q) == k * (8 * q) * 8 && 32 * (k * q) == k * (8 * q) * 4
  {
  }

  /** srcadr of a tiled sprite: the start of row `y` of its texels. */
  method SourceRow(m: Memory, s: Sprite, y: int) returns (srcadr: int)
    requires Configured(m)
    ensures srcadr == TileBase(m, s) + RowPart(m, s, y)
  {
    TileOffsets(m, s, 0, y);
    hide RowPart, Wide;
    if m.linear {
      srcadr := m.sprMem + s.tile * m.unit;
      if s.deep {
        srcadr := srcadr + y / 8 * Wide(s) * 8 + y % 8 * 8;
      } else {
        srcadr := srcadr + y / 8 * Wide(s) * 4 + y % 8 * 4;
      }
    } else {
      srcadr := m.sprMem + s.tile * 32 + y / 8 * 1024 + if s.deep then y % 8 * 8 else y % 8 * 4;
    }
  }

  /** bmp_sprite_address */
  method BmpAddress(m: Memory, s: Sprite, y: int) returns (adr: int)
    requires Fits(s)
    ensures adr == BmpOrigin(m, s) + 2 * (y * BmpPitch(m, s))
  {
    hide Wide;
    if m.bmpLinear {
      adr := m.sprMem + s.tile * m.bmpUnit + y * Wide(s) * 2;
    } else if m.bmpWide {
      adr := m.sprMem + (s.tile / 32 * 32 * 64 + s.tile % 32 * 8 + y * 256) * 2;
    } else {
      adr := m.sprMem + (s.tile / 16 * 16 * 64 + s.tile % 16 * 8 + y * 128) * 2;
    }
  }

  // ------------------------------------------ plain sprites

  /** A column after the dots of a plain sprite on [sprX, sprX + lg). */
  function Painted(m: Memory, s: Sprite, num: nat, y: int, lg: int, sprX: int, x: int, xdir: int, c: int,
        was: Cell): Cell {
    if sprX <= c < sprX + lg
    then Put(was, num, s.priority, PlainOffer(m, s, PlainTexel(m, s, Walk(x, xdir, c - sprX), y))) else was
  }

  /** render_sprite_BMP */
  method RenderBmp(m: Memory, num: nat, s: Sprite, cells: array<Cell>, srcadr: int,
        lg: int, sprX0: int, x0: int, xdir: int, ghost y: int)
    requires cells.Length == COLUMNS && 0 <= sprX0 <= sprX0 + lg <= COLUMNS && (xdir == 1 || xdir == -1)
    requires !s.rot && s.mode == 3 && s.palette != 0 && srcadr == BmpOrigin(m, s) + 2 * (y * BmpPitch(m, s))
    modifies cells
    ensures forall c :: 0 <= c < COLUMNS ==> cells[c] == Painted(m, s, num, y, lg, sprX0, x0, xdir, c, old(cells[c]))
  {
    hide Host, PlainTexel;
    var i, sprX, x := 0, sprX0, x0;
    while i < lg
      invariant 0 <= i <= lg && sprX == sprX0 + i && x == Walk(x0, xdir, i)
      invariant forall c :: 0 <= c < COLUMNS ==> cells[c] == Painted(m, s, num, y, i, sprX0, x0, xdir, c, old(cells[c]))
    {
      var colour := Word(m, srcadr + x * 2);
      BmpDot(m, s, srcadr, x, y);
      if HighBit(colour) && s.priority < cells[sprX].prio {
        cells[sprX] := Cell(colour, s.palette + 1, 3, s.priority, cells[sprX].win, num);
      }
      i, sprX, x := i + 1, sprX + 1, x + xdir;
    }
  }

  /** render_sprite_256 */
  method Render256(m: Memory, num: nat, s: Sprite, cells: array<Cell>, srcadr: int, ext: bool, pal: int,
        lg: int, sprX0: int, x0: int, xdir: int, ghost y: int)
    requires cells.Length == COLUMNS && 0 <= sprX0 <= sprX0 + lg <= COLUMNS && (xdir == 1 || xdir == -1)
    requires !s.rot && s.mode < 2 && s.deep && srcadr == TileBase(m, s) + RowPart(m, s, y)
    requires pal == PaletteBase(m, s) && ext == m.extPal
    modifies cells
    ensures forall c :: 0 <= c < COLUMNS ==> cells[c] == Painted(m, s, num, y, lg, sprX0, x0, xdir, c, old(cells[c]))
  {
    hide Host, PlainTexel;
    var i, sprX, x := 0, sprX0, x0;
    while i < lg
      invariant 0 <= i <= lg && sprX == sprX0 + i && x == Walk(x0, xdir, i)
      invariant forall c :: 0 <= c < COLUMNS ==> cells[c] == Painted(m, s, num, y, i, sprX0, x0, xdir, c, old(cells[c]))
    {
      var entry: int := Through(m, srcadr + x % 8 + x / 8 * 8 * 8, 0);
      PictureDot(m, s, srcadr, x, y);
      if entry > 0 && s.priority < cells[sprX].prio {
        var kind := if s.mode == 1 then 1 else 0;
        cells[sprX] := Cell(m.colour(ext, pal + 2 * entry), 0xFF, kind, s.priority, cells[sprX].win, num);
      }
      i, sprX, x := i + 1, sprX + 1, x + xdir;
    }
  }

  /** render_sprite_16 */
  method Render16(m: Memory, ghost num: nat, s: Sprite, cells: array<Cell>, srcadr: int, pal: int,
        lg: int, sprX0: int, x0: int, xdir: int, ghost y: int)
    requires cells.Length == COLUMNS && 0 <= sprX0 <= sprX0 + lg <= COLUMNS && (xdir == 1 || xdir == -1)
    requires !s.rot && s.mode < 2 && !s.deep && srcadr == TileBase(m, s) + RowPart(m, s, y) && pal == PaletteBase(m, s)
    modifies cells
    ensures forall c :: 0 <= c < COLUMNS ==> cells[c] == Painted(m, s, num, y, lg, sprX0, x0, xdir, c, old(cells[c]))
  {
    hide Host, PlainTexel;
    var i, sprX, x := 0, sprX0, x0;
    while i < lg
      invariant 0 <= i <= lg && sprX == sprX0 + i && x == Walk(x0, xdir, i)
      invariant forall c :: 0 <= c < COLUMNS ==> cells[c] == Painted(m, s, num, y, i, sprX0, x0, xdir, c, old(cells[c]))
    {
      var x1 := x / 2;
      var palette := Through(m, srcadr + x1 % 4 + x1 / 4 * 4 * 8, 0);
      var entry := if x % 2 == 1 then palette / 16 else palette % 16;
      PictureDot(m, s, srcadr, x, y);
      if entry > 0 && s.priority < cells[sprX].prio {
        var colour := m.colour(false, pal + 2 * entry);
        cells[sprX] := cells[sprX].(
          colour := colour, alpha := 0xFF, kind := if s.mode == 1 then 1 else 0, prio := s.priority);
      }
      i, sprX, x := i + 1, sprX + 1, x + xdir;
    }
  }

  /** render_sprite_Win, through a pointer to the row */
  method RenderWin(m: Memory, ghost num: nat, s: Sprite, cells: array<Cell>, src: int,
        lg: int, sprX0: int, x0: int, xdir: int, ghost y: int)
    requires cells.Length == COLUMNS && 0 <= sprX0 <= sprX0 + lg <= COLUMNS && (xdir == 1 || xdir == -1)
    requires !s.rot && s.mode == 2 && src == Host(m, TileBase(m, s) + RowPart(m, s, y))
    modifies cells
    ensures forall c :: 0 <= c < COLUMNS ==> cells[c] == Painted(m, s, num, y, lg, sprX0, x0, xdir, c, old(cells[c]))
  {
    hide Host, PlainTexel;
    var i, sprX, x := 0, sprX0, x0;
    while i < lg
      invariant 0 <= i <= lg && sprX == sprX0 + i && x == Walk(x0, xdir, i)
      invariant forall c :: 0 <= c < COLUMNS ==> cells[c] == Painted(m, s, num, y, i, sprX0, x0, xdir, c, old(cells[c]))
    {
      var entry: int;
      if s.deep {
        entry := m.lcd(src + x % 8 + x / 8 * 8 * 8);
      } else {
        var x1 := x / 2;
        var palette := m.lcd(src + x1 % 4 + x1 / 4 * 4 * 8);
        entry := if x % 2 == 1 then palette / 16 else palette % 16;
      }
      WindowDot(m, s, src, x, y);
      if entry != 0 {
        cells[sprX] := cells[sprX].(win := true);
      }
      i, sprX, x := i + 1, sprX + 1, x + xdir;
    }
  }

  /** The offset of a sprite's colours in its palette memory. */
  function PaletteBase(m: Memory, s: Sprite): int {
    if !s.deep then 32 * s.palette else if m.extPal then 0x200 * s.palette else 0
  }

  lemma BmpDot(m: Memory, s: Sprite, srcadr: int, x: int, y: int)
    requires !s.rot && s.mode == 3 && srcadr == BmpOrigin(m, s) + 2 * (y * BmpPitch(m, s))
    ensures PlainTexel(m, s, x, y) == Word(m, srcadr + x * 2)
    ensures forall t :: PlainOffer(m, s, t) ==
              if s.palette != 0 && HighBit(t) then Pixel(t, s.palette + 1, 3, true) else Nothing
  {
    hide Host, BmpOrigin, BmpPitch;
  }

  lemma PictureDot(m: Memory, s: Sprite, srcadr: int, x: int, y: int)
    requires !s.rot && s.mode < 2 && srcadr == TileBase(m, s) + RowPart(m, s, y)
    ensures s.deep ==> PlainTexel(m, s, x, y) == Through(m, srcadr + x % 8 + x / 8 * 8 * 8, 0)
    ensures !s.deep ==> var b := Through(m, srcadr + x / 2 % 4 + x / 2 / 4 * 4 * 8, 0);
                        PlainTexel(m, s, x, y) == if x % 2 == 1 then b / 16 else b % 16
  {
    TileOffsets(m, s, x, y);
    hide Host, RowPart, TileBase, ColumnPart;
  }

  lemma WindowDot(m: Memory, s: Sprite, src: int, x: int, y: int)
    requires !s.rot && s.mode == 2 && src == Host(m, TileBase(m, s) + RowPart(m, s, y))
    ensures s.deep ==> PlainTexel(m, s, x, y) == m.lcd(src + x % 8 + x / 8 * 8 * 8)
    ensures !s.deep ==> var b := m.lcd(src + x / 2 % 4 + x / 2 / 4 * 4 * 8);
                        PlainTexel(m, s, x, y) == if x % 2 == 1 then b / 16 else b % 16
  {
    TileOffsets(m, s, x, y);
    hide Host, RowPart, TileBase, ColumnPart;
  }

  // ------------------------------------------ rotated sprites

  /** A coordinate after `k` columns. */
  function Along(start: int, step: int, k: int): int { start + k * step }

  lemma AlongNone(start: int, step: int)
    ensures Along(start, step, 0) == start
  {
  }

  lemma AlongNext(start: int, step: int, k: int)
    ensures Along(start, step, k + 1) == Along(start, step, k) + step
  {
  }

  /** A column after the dots of a rotated sprite on [sprX, sprX + lg). */
  function PaintedTurned(m: Memory, s: Sprite, num: nat, lg: int, sprX: int, realX: int, realY: int, dx: int, dy: int,
        c: int, was: Cell): Cell {
    if !(sprX <= c < sprX + lg) then was
    else
      var x, y := Along(realX, dx, c - sprX) / 0x100, Along(realY, dy, c - sprX) / 0x100;
      if InSprite(s, x, y) then Put(was, num, s.priority, TurnedOffer(m, s, TurnedTexel(m, s, x, y))) else was
  }

  /** The 256-colour loop, which does not look for window sprites. */
  method Turn256(m: Memory, ghost num: nat, s: Sprite, cells: array<Cell>, src: int, ext: bool, pal: int,
        lg: int, sprX0: int, realX0: int, realY0: int, dx: int, dy: int)
    requires cells.Length == COLUMNS && 0 <= sprX0 <= sprX0 + lg <= COLUMNS
    requires s.rot && s.deep && src == Host(m, TileBase(m, s)) && pal == PaletteBase(m, s) && ext == m.extPal
    modifies cells
    ensures forall c :: 0 <= c < COLUMNS ==>
              cells[c] == PaintedTurned(m, s, num, lg, sprX0, realX0, realY0, dx, dy, c, old(cells[c]))
  {
    hide Along, Host, TurnedTexel;
    AlongNone(realX0, dx);
    AlongNone(realY0, dy);
    var j, sprX, realX, realY := 0, sprX0, realX0, realY0;
    while j < lg
      invariant 0 <= j <= lg && sprX == sprX0 + j && realX == Along(realX0, dx, j) && realY == Along(realY0, dy, j)
      invariant forall c :: 0 <= c < COLUMNS ==>
                cells[c] == PaintedTurned(m, s, num, j, sprX0, realX0, realY0, dx, dy, c, old(cells[c]))
    {
      var auxX, auxY := realX / 0x100, realY / 0x100;
      if auxX >= 0 && auxY >= 0 && auxX < Wide(s) && auxY < High(s) {
        var offset := TileOffset(m, s, auxX, auxY);
        var colour: int := m.lcd(src + offset);
        if colour != 0 && s.priority < cells[sprX].prio {
          cells[sprX] := cells[sprX].(
            colour := m.colour(ext, pal + 2 * colour), alpha := 0xFF, kind := s.mode, prio := s.priority);
        }
      }
      AlongNext(realX0, dx, j);
      AlongNext(realY0, dy, j);
      j, sprX, realX, realY := j + 1, sprX + 1, realX + dx, realY + dy;
    }
  }

  /** The bitmap loop. */
  method TurnBmp(m: Memory, ghost num: nat, s: Sprite, cells: array<Cell>, srcadr: int,
        lg: int, sprX0: int, realX0: int, realY0: int, dx: int, dy: int)
    requires cells.Length == COLUMNS && 0 <= sprX0 <= sprX0 + lg <= COLUMNS
    requires s.rot && Fits(s) && !s.deep && s.mode == 3 && s.palette != 0 && srcadr == BmpOrigin(m, s)
    modifies cells
    ensures forall c :: 0 <= c < COLUMNS ==>
              cells[c] == PaintedTurned(m, s, num, lg, sprX0, realX0, realY0, dx, dy, c, old(cells[c]))
  {
    hide Along, Host, TurnedTexel;
    AlongNone(realX0, dx);
    AlongNone(realY0, dy);
    var j, sprX, realX, realY := 0, sprX0, realX0, realY0;
    while j < lg
      invariant 0 <= j <= lg && sprX == sprX0 + j && realX == Along(realX0, dx, j) && realY == Along(realY0, dy, j)
      invariant forall c :: 0 <= c < COLUMNS ==>
                cells[c] == PaintedTurned(m, s, num, j, sprX0, realX0, realY0, dx, dy, c, old(cells[c]))
    {
      var auxX, auxY := realX / 0x100, realY / 0x100;
      if auxX >= 0 && auxY >= 0 && auxX < Wide(s) && auxY < High(s) {
        var offset := auxX + auxY * Wide(s);
        if m.bmpWide {
          var row := BmpAddress(m, s, auxY);
          offset := (row - srcadr) / 2 + auxX;
        }
        var colour := Word(m, srcadr + offset * 2);
        TurnedBmpDot(m, s, offset, auxX, auxY);
        if HighBit(colour) && s.priority < cells[sprX].prio {
          cells[sprX] := cells[sprX].(colour := colour, alpha := s.palette, kind := s.mode, prio := s.priority);
        }
      }
      AlongNext(realX0, dx, j);
      AlongNext(realY0, dy, j);
      j, sprX, realX, realY := j + 1, sprX + 1, realX + dx, realY + dy;
    }
  }

  /** The 16-colour loop. */
  method Turn16(m: Memory, ghost num: nat, s: Sprite, cells: array<Cell>, src: int, pal: int,
        lg: int, sprX0: int, realX0: int, realY0: int, dx: int, dy: int)
    requires cells.Length == COLUMNS && 0 <= sprX0 <= sprX0 + lg <= COLUMNS
    requires s.rot && !s.deep && s.mode != 3 && src == Host(m, TileBase(m, s)) && pal == PaletteBase(m, s)
    modifies cells
    ensures forall c :: 0 <= c < COLUMNS ==>
              cells[c] == PaintedTurned(m, s, num, lg, sprX0, realX0, realY0, dx, dy, c, old(cells[c]))
  {
    hide Along, Host, TurnedTexel;
    AlongNone(realX0, dx);
    AlongNone(realY0, dy);
    var j, sprX, realX, realY := 0, sprX0, realX0, realY0;
    while j < lg
      invariant 0 <= j <= lg && sprX == sprX0 + j && realX == Along(realX0, dx, j) && realY == Along(realY0, dy, j)
      invariant forall c :: 0 <= c < COLUMNS ==>
                cells[c] == PaintedTurned(m, s, num, j, sprX0, realX0, realY0, dx, dy, c, old(cells[c]))
    {
      var auxX, auxY := realX / 0x100, realY / 0x100;
      if auxX >= 0 && auxY >= 0 && auxX < Wide(s) && auxY < High(s) {
        var offset := TileOffset(m, s, auxX, auxY);
        var b := m.lcd(src + offset);
        var colour := if auxX % 2 == 1 then b / 16 else b % 16;
        if colour != 0 && s.priority < cells[sprX].prio {
          if s.mode == 2 {
            cells[sprX] := cells[sprX].(win := true);
          } else {
            cells[sprX] := cells[sprX].(
              colour := m.colour(false, pal + 2 * colour), alpha := 0xFF, kind := s.mode, prio := s.priority);
          }
        }
      }
      AlongNext(realX0, dx, j);
      AlongNext(realY0, dy, j);
      j, sprX, realX, realY := j + 1, sprX + 1, realX + dx, realY + dy;
    }
  }

  /** The offset of a texel from the first tile. */
  method TileOffset(m: Memory, s: Sprite, auxX: int, auxY: int) returns (offset: int)
    requires s.rot && (s.deep || s.mode != 3)
    ensures TurnedTexel(m, s, auxX, auxY) ==
            var b := m.lcd(Host(m, TileBase(m, s)) + offset);
            if s.deep then b else if auxX % 2 == 1 then b / 16 else b % 16
  {
    TileOffsets(m, s, auxX, auxY);
    hide Host, RowPart, ColumnPart, TileBase, Wide;
    if s.deep {
      offset := auxX % 8 + auxX / 8 * 8 * 8;
      if m.linear {
        offset := offset + auxY / 8 * Wide(s) * 8 + auxY % 8 * 8;
      } else {
        offset := offset + auxY / 8 * 1024 + auxY % 8 * 8;
      }
    } else {
      offset := auxX / 2 % 4 + auxX / 2 / 4 * 4 * 8;
      if m.linear {
        offset := offset + auxY / 8 * Wide(s) * 4 + auxY % 8 * 4;
      } else {
        offset := offset + auxY / 8 * 1024 + auxY % 8 * 4;
      }
    }
  }

  lemma TurnedBmpDot(m: Memory, s: Sprite, offset: int, x: int, y: int)
    requires s.rot && !s.deep && s.mode == 3
    requires offset == if !m.bmpWide then x + y * Wide(s)
                       else (BmpOrigin(m, s) + 2 * (y * BmpPitch(m, s)) - BmpOrigin(m, s)) / 2 + x
    ensures TurnedTexel(m, s, x, y) == Word(m, BmpOrigin(m, s) + offset * 2)
  {
    hide Host, BmpOrigin, BmpPitch, Wide;
  }

  /** The setup of a rotated sprite: the columns it covers and where the first of
      them falls. */
  method ComputeTurnedVars(oam: Oam, s: Sprite, l: int)
    returns (drawn: bool, sprX: int, lg: int, realX: int, realY: int, dx: int, dy: int)
    requires Fits(s) && s.rot
    ensures drawn <==> OnLine(s, l) && exists c :: 0 <= c < COLUMNS && Over(s, c)
    ensures drawn ==> 0 <= sprX < sprX + lg <= COLUMNS
    ensures drawn ==> forall c :: sprX <= c < sprX + lg <==> 0 <= c < COLUMNS && Over(s, c)
    ensures drawn ==> forall c :: sprX <= c < sprX + lg ==>
              Along(realX, dx, c - sprX) == RealX(oam, s, l, c) && Along(realY, dy, c - sprX) == RealY(oam, s, l, c)
  {
    hide Wide, High, Param, Along, Start, RealX, RealY;
    drawn, sprX, lg := false, s.x, Wide(s);
    realX, realY, dx, dy := 0, 0, 0, 0;
    var fieldX, fieldY := Wide(s), High(s);
    if s.bit9 {
      fieldX, fieldY, lg := fieldX * 2, fieldY * 2, lg * 2;
    }
    var y := (l - s.y) % 256;
    if y >= fieldY { return; }
    if sprX == 256 || sprX + fieldX <= 0 { return; }
    assert Over(s, if s.x < 0 then 0 else s.x);
    dx, dy := Param(oam, s, 0), Param(oam, s, 2);
    realX := Start(Wide(s), fieldX / 2, dx, fieldY / 2, Param(oam, s, 1), y);
    realY := Start(High(s), fieldX / 2, dy, fieldY / 2, Param(oam, s, 3), y);
    ghost var x0, y0 := realX, realY;
    AlongNone(x0, dx);
    AlongNone(y0, dy);
    if sprX < 0 {
      lg := lg + sprX;
      realX := Along(realX, dx, -sprX);
      realY := Along(realY, dy, -sprX);
      sprX := 0;
    } else if sprX + fieldX > 256 {
      lg := 256 - sprX;
    }
    drawn := true;
    forall c | sprX <= c < sprX + lg
      ensures Along(realX, dx, c - sprX) == RealX(oam, s, l, c) && Along(realY, dy, c - sprX) == RealY(oam, s, l, c)
    {
      TurnedAlong(oam, s, l, c, sprX);
    }
  }

  /** The starting point of the source, moved to column `from`, is the point the
      rotation about the centre gives. */
  lemma TurnedAlong(oam: Oam, s: Sprite, l: int, c: int, from: int)
    requires Fits(s)
    ensures var d := Param(oam, s, 0);
            var start := Start(Wide(s), FieldX(s) / 2, d, FieldY(s) / 2, Param(oam, s, 1), Row(s, l));
            Along(Along(start, d, from - s.x), d, c - from) == RealX(oam, s, l, c)
    ensures var d := Param(oam, s, 2);
            var start := Start(High(s), FieldX(s) / 2, d, FieldY(s) / 2, Param(oam, s, 3), Row(s, l));
            Along(Along(start, d, from - s.x), d, c - from) == RealY(oam, s, l, c)
  {
    hide Wide, High, Param, Row;
    Expand(Wide(s), FieldX(s) / 2, Param(oam, s, 0), FieldY(s) / 2, Param(oam, s, 1), Row(s, l), from - s.x, c - from);
    Expand(High(s), FieldX(s) / 2, Param(oam, s, 2), FieldY(s) / 2, Param(oam, s, 3), Row(s, l), from - s.x, c - from);
  }

  /** Where the left edge of the field falls. */
  function Start(side: int, halfX: int, d: int, halfY: int, dm: int, y: int): int {
    side * 128 - halfX * d - halfY * dm + y * dm
  }

  lemma Expand(side: int, halfX: int, d: int, halfY: int, dm: int, y: int, u: int, k: int)
    ensures Along(Along(Start(side, halfX, d, halfY, dm, y), d, u), d, k)
        == Turned(side, u + k - halfX, d, y - halfY, dm)
  {
    assert (u + k - halfX) * d == u * d + k * d - halfX * d;
    assert (y - halfY) * dm == y * dm - halfY * dm;
  }

  // ------------------------------------------ all sprites

  /** One sprite that is not rotated. */
  method DrawPlain(m: Memory, oam: Oam, i: nat, l: int, cells: array<Cell>)
    requires cells.Length == COLUMNS && i < SPRITES && !oam[i].rot && Configured(m)
    modifies cells
    ensures forall c :: 0 <= c < COLUMNS ==>
              cells[c] == Put(old(cells[c]), i, oam[i].priority, OfferAt(m, oam, i, l, c))
  {
    var s := oam[i];
    if s.bit9 { return; }
    var drawn, sprX, x, y, lg, xdir := ComputeSpriteVars(s, l);
    hide Walk, TexX, TexY, PlainTexel, OnLine, Over, Host, TileBase, RowPart, BmpOrigin, BmpPitch;
    if !drawn { return; }
    if s.mode == 2 {
      var srcadr := SourceRow(m, s, y);
      RenderWin(m, i, s, cells, Host(m, srcadr), lg, sprX, x, xdir, y);
    } else if s.mode == 3 {
      var srcadr := BmpAddress(m, s, y);
      if s.palette == 0 { return; }
      RenderBmp(m, i, s, cells, srcadr, lg, sprX, x, xdir, y);
    } else {
      var srcadr := SourceRow(m, s, y);
      if s.deep {
        Render256(m, i, s, cells, srcadr, m.extPal, if m.extPal then s.palette * 0x200 else 0, lg, sprX, x, xdir, y);
      } else {
        Render16(m, i, s, cells, srcadr, s.palette * 32, lg, sprX, x, xdir, y);
      }
    }
  }

  /** One rotated sprite. */
  method DrawTurned(m: Memory, oam: Oam, i: nat, l: int, cells: array<Cell>)
    requires cells.Length == COLUMNS && i < SPRITES && oam[i].rot && Configured(m)
    modifies cells
    ensures forall c :: 0 <= c < COLUMNS ==>
              cells[c] == Put(old(cells[c]), i, oam[i].priority, OfferAt(m, oam, i, l, c))
  {
    var s := oam[i];
    var drawn, sprX, lg, realX, realY, dx, dy := ComputeTurnedVars(oam, s, l);
    hide Along, RealX, RealY, TurnedTexel, OnLine, Over, Host, BmpOrigin, BmpPitch;
    if !drawn { return; }
    if s.deep {
      var pal := if m.extPal then s.palette * 0x200 else 0;
      Turn256(m, i, s, cells, Host(m, m.sprMem + s.tile * m.unit), m.extPal, pal, lg, sprX, realX, realY, dx, dy);
    } else if s.mode == 3 {
      if s.palette == 0 { return; }
      var srcadr := BmpAddress(m, s, 0);
      TurnBmp(m, i, s, cells, srcadr, lg, sprX, realX, realY, dx, dy);
    } else {
      var src := Host(m, m.sprMem + s.tile * if m.linear then m.unit else 32);
      Turn16(m, i, s, cells, src, s.palette * 32, lg, sprX, realX, realY, dx, dy);
    }
  }

  /** _spriteRender, on buffers cleared as GPU_RenderLine_layer clears them. */
  method SpriteRender(m: Memory, oam: Oam, l: int, cells: array<Cell>)
    requires Configured(m) && cells.Length == COLUMNS && forall c :: 0 <= c < COLUMNS ==> cells[c] == Clear(m, c)
    modifies cells
    ensures forall c :: 0 <= c < COLUMNS ==> cells[c] == Column(m, oam, l, c, SPRITES)
  {
    hide OfferAt, Put;
    var i: nat := 0;
    while i < SPRITES
      invariant i <= SPRITES
      invariant forall c :: 0 <= c < COLUMNS ==> cells[c] == Column(m, oam, l, c, i)
    {
      if oam[i].rot {
        DrawTurned(m, oam, i, l, cells);
      } else {
        DrawPlain(m, oam, i, l, cells);
      }
      i := i + 1;
    }
  }
}
