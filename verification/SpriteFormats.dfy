/**
 The format of sprites: sizes, mirroring, the parameters of rotation, and where texels
 and colours lie, against plain arithmetic.
 */
module SpriteFormats {
  import opened Sprites
  import Vram
  import VramPlaces

  // ------------------------------------------------------------- outlines

  /** Every value of DISPCNT configures the renderer as it expects: tile numbers count 32
      bytes, or 32 to 256 of them where tiles lie in a line. */
  lemma VideoPropConfigures(m: Memory, engineB: bool, cnt: nat)
    ensures var r := SetVideoProp(m, engineB, cnt);
            && Configured(r) && r.unit in {32, 64, 128, 256} && r.bmpUnit in {128, 256}
            && (r.unit > 32 ==> cnt / 16 % 2 == 1) && (r.bmpUnit > 128 ==> !engineB)
  {
  }

  /** Square, wide and high sprites of four sizes each. */
  lemma SizesAre(s: Sprite)
    requires Fits(s)
    ensures (Wide(s), High(s)) ==
            match s.shape
            case 0 => [(8, 8), (16, 16), (32, 32), (64, 64)][s.size]
            case 1 => [(16, 8), (32, 8), (32, 16), (64, 32)][s.size]
            case 2 => [(8, 16), (8, 32), (16, 32), (32, 64)][s.size]
            case _ => (8, 8)
  {
  }

  /** A plain sprite covers as many columns and lines as it is large, from its position on,
      lines counted around 256; its disable bit hides it; a rotated one covers twice that if
      its double-size bit is set. */
  lemma CoveredAre(s: Sprite, l: int, c: int)
    requires Fits(s) && 0 <= l < 256
    ensures var twice := if s.rot && s.bit9 then 2 else 1;
            && (Over(s, c) <==> s.x <= c < s.x + twice * Wide(s))
            && (OnLine(s, l) <==>
                  && (s.rot || !s.bit9)
                  && (s.y <= l < s.y + twice * High(s) || l < s.y + twice * High(s) - 256))
  {
    hide Wide, High;
  }

  /** Elsewhere a sprite has nothing. */
  lemma NothingOutside(m: Memory, oam: Oam, i: nat, l: int, c: int)
    requires i < SPRITES && 0 <= l < 256 && OfferAt(m, oam, i, l, c) != Nothing
    ensures var s := oam[i];
            var twice := if s.rot && s.bit9 then 2 else 1;
            && s.x <= c < s.x + twice * Wide(s) && (s.rot || !s.bit9)
            && (s.y <= l < s.y + twice * High(s) || l < s.y + twice * High(s) - 256)
  {
    CoveredAre(oam[i], l, c);
    hide Wide, High, Row, Over, OnLine, PlainTexel, TurnedTexel, RealX, RealY, PlainOffer, TurnedOffer;
  }

  // ------------------------------------------------------------ mirroring

  /** A mirrored sprite shows at a column what the plain one shows at the column opposite,
      and likewise for lines. */
  lemma MirrorsAre(m: Memory, oam: Oam, i: nat, l: int, c: int)
    requires i < SPRITES && !oam[i].rot && OnLine(oam[i], l) && Over(oam[i], c)
    ensures var s := oam[i];
            var opposite := s.x + (s.x + Wide(s) - 1 - c);
            !s.hflip ==>
              Over(s, opposite) && TexelAt(m, oam[i := s.(hflip := true)], i, l, c) == TexelAt(m, oam, i, l, opposite)
    ensures var s := oam[i];
            !s.vflip ==>
              var opposite := s.y + (High(s) - 1 - Row(s, l));
              OnLine(s, opposite) && TexelAt(m, oam[i := s.(vflip := true)], i, l, c) == TexelAt(m, oam, i, opposite, c)
  {
    hide Wide, High, PlainTexel;
    RowOpposite(oam[i], l);
    TexelsIgnoreMirrors(m, oam[i]);
  }

  lemma TexelsIgnoreMirrors(m: Memory, s: Sprite)
    ensures forall x, y :: PlainTexel(m, s.(hflip := true), x, y) == PlainTexel(m, s, x, y)
    ensures forall x, y :: PlainTexel(m, s.(vflip := true), x, y) == PlainTexel(m, s, x, y)
    ensures Wide(s.(hflip := true)) == Wide(s) == Wide(s.(vflip := true))
    ensures High(s.(hflip := true)) == High(s) == High(s.(vflip := true))
  {
    hide PlainTexel;
    forall x, y ensures PlainTexel(m, s.(hflip := true), x, y) == PlainTexel(m, s, x, y) {
      SameTexel(m, s, s.(hflip := true), x, y);
    }
    forall x, y ensures PlainTexel(m, s.(vflip := true), x, y) == PlainTexel(m, s, x, y) {
      SameTexel(m, s, s.(vflip := true), x, y);
    }
  }

  lemma SameTexel(m: Memory, s: Sprite, t: Sprite, x: int, y: int)
    requires s == t.(hflip := s.hflip, vflip := s.vflip)
    ensures PlainTexel(m, t, x, y) == PlainTexel(m, s, x, y)
  {
    hide Host;
  }

  lemma RowOpposite(s: Sprite, l: int)
    requires Row(s, l) < High(s)
    ensures Row(s, s.y + (High(s) - 1 - Row(s, l))) == High(s) - 1 - Row(s, l)
  {
  }

  // ------------------------------------------------------------- rotation

  /** The four parameters of a set, each in its own entry of the table. */
  predicate Parameters(oam: Oam, s: Sprite, dx: int, dmx: int, dy: int, dmy: int)
    requires Fits(s)
  {
    var first := 4 * (s.index + (if s.hflip then 8 else 0) + (if s.vflip then 16 else 0));
    && oam[first].attr3 == dx && oam[first + 1].attr3 == dmx
    && oam[first + 2].attr3 == dy && oam[first + 3].attr3 == dmy
  }

  lemma ParametersAre(oam: Oam, s: Sprite, dx: int, dmx: int, dy: int, dmy: int)
    requires Fits(s) && Parameters(oam, s, dx, dmx, dy, dmy)
    ensures Param(oam, s, 0) == dx && Param(oam, s, 1) == dmx && Param(oam, s, 2) == dy && Param(oam, s, 3) == dmy
  {
  }

  /** Whatever the parameters, the centre of the field shows the centre of the sprite. */
  lemma CentreIsFixed(oam: Oam, s: Sprite, l: int, c: int)
    requires Fits(s) && s.rot
    requires var half := if s.bit9 then 2 else 1; c - s.x == half * Wide(s) / 2 && Row(s, l) == half * High(s) / 2
    ensures RealX(oam, s, l, c) == 0x100 * (Wide(s) / 2) && RealY(oam, s, l, c) == 0x100 * (High(s) / 2)
  {
    assert Wide(s) % 2 == 0 && High(s) % 2 == 0;
    assert c - s.x - FieldX(s) / 2 == 0 && Row(s, l) - FieldY(s) / 2 == 0;
    hide Wide, High, Row, Param, FieldX, FieldY;
  }

  /** From there dx and dy lead to the next column, dmx and dmy to the next line. */
  lemma ParametersStep(oam: Oam, s: Sprite, l: int, c: int, dx: int, dmx: int, dy: int, dmy: int)
    requires Fits(s) && Parameters(oam, s, dx, dmx, dy, dmy)
    ensures RealX(oam, s, l, c + 1) == RealX(oam, s, l, c) + dx && RealY(oam, s, l, c + 1) == RealY(oam, s, l, c) + dy
    ensures Row(s, l + 1) == Row(s, l) + 1 ==>
              && RealX(oam, s, l + 1, c) == RealX(oam, s, l, c) + dmx
              && RealY(oam, s, l + 1, c) == RealY(oam, s, l, c) + dmy
  {
    hide Wide, High, Row, Param, FieldX, FieldY, Parameters;
    ParametersAre(oam, s, dx, dmx, dy, dmy);
    Steps(c - s.x - FieldX(s) / 2, dx, dy);
    Steps(Row(s, l) - FieldY(s) / 2, dmx, dmy);
  }

  lemma Steps(u: int, d: int, e: int)
    ensures (u + 1) * d == u * d + d && (u + 1) * e == u * e + e
  {
  }

  /** With the identity as parameters a rotated sprite of single size shows the texel that
      lies under the column. */
  lemma IdentityIsPlain(m: Memory, oam: Oam, i: nat, l: int, c: int)
    requires i < SPRITES && OnLine(oam[i], l) && Over(oam[i], c)
    requires var s := oam[i]; s.rot && !s.bit9 && Parameters(oam, s, 0x100, 0, 0, 0x100)
    ensures TexelAt(m, oam, i, l, c) == Texel(TurnedTexel(m, oam[i], c - oam[i].x, Row(oam[i], l)))
  {
    Unturned(oam, oam[i], l, c);
    hide Wide, High, TurnedTexel, RealX, RealY;
  }

  lemma Unturned(oam: Oam, s: Sprite, l: int, c: int)
    requires Fits(s) && s.rot && !s.bit9 && Parameters(oam, s, 0x100, 0, 0, 0x100)
    ensures RealX(oam, s, l, c) / 0x100 == c - s.x && RealY(oam, s, l, c) / 0x100 == Row(s, l)
  {
    hide Wide, High, Row;
  }

  /** A quarter turn: columns run along the texel's height and lines against its width, of
      which the first one falls outside. */
  lemma QuarterTurn(m: Memory, oam: Oam, i: nat, l: int, c: int)
    requires i < SPRITES && OnLine(oam[i], l) && Over(oam[i], c)
    requires var s := oam[i]; s.rot && !s.bit9 && s.shape == 0 && Parameters(oam, s, 0, -0x100, 0x100, 0)
    ensures var s := oam[i]; var r := Row(s, l);
            TexelAt(m, oam, i, l, c) ==
              if r == 0 then Missing else Texel(TurnedTexel(m, s, Wide(s) - r, c - s.x))
  {
    assert Wide(oam[i]) == High(oam[i]);
    Quarter(oam, oam[i], l, c);
    RowIsNatural(oam[i], l);
    hide Wide, High, Row, TurnedTexel, RealX, RealY;
  }

  lemma Quarter(oam: Oam, s: Sprite, l: int, c: int)
    requires Fits(s) && s.rot && !s.bit9 && s.shape == 0 && Parameters(oam, s, 0, -0x100, 0x100, 0)
    ensures RealX(oam, s, l, c) / 0x100 == Wide(s) - Row(s, l) && RealY(oam, s, l, c) / 0x100 == c - s.x
  {
    assert Wide(s) == High(s);
    hide Wide, High, Row;
  }

  lemma RowIsNatural(s: Sprite, l: int)
    ensures 0 <= Row(s, l) < 256
  {
  }

  /** In a field of double size the sprite itself, unturned, lies in the middle. */
  lemma DoubleIsCentred(m: Memory, oam: Oam, i: nat, l: int, c: int)
    requires i < SPRITES && OnLine(oam[i], l) && Over(oam[i], c)
    requires var s := oam[i]; s.rot && s.bit9 && Parameters(oam, s, 0x100, 0, 0, 0x100)
    ensures var s := oam[i];
            var x, y := c - s.x - Wide(s) / 2, Row(s, l) - High(s) / 2;
            TexelAt(m, oam, i, l, c) ==
              if 0 <= x < Wide(s) && 0 <= y < High(s) then Texel(TurnedTexel(m, s, x, y)) else Missing
  {
    Centred(oam, oam[i], l, c);
    hide Wide, High, Row, TurnedTexel, RealX, RealY;
  }

  lemma Centred(oam: Oam, s: Sprite, l: int, c: int)
    requires Fits(s) && s.rot && s.bit9 && Parameters(oam, s, 0x100, 0, 0, 0x100)
    ensures RealX(oam, s, l, c) / 0x100 == c - s.x - Wide(s) / 2
    ensures RealY(oam, s, l, c) / 0x100 == Row(s, l) - High(s) / 2
  {
    hide Row;
  }

  // --------------------------------------------------- texels and colours

  /** Where the row of a texel and its column lie from the tile on: tiles of 32 bytes with
      two dots a byte, or of 64 bytes, in rows as wide as the sprite or of 1 KB. */
  function RowBytes(m: Memory, s: Sprite, y: nat): nat {
    var tiles := y / 8 * if m.linear then Wide(s) / 8 else if s.deep then 16 else 32;
    if s.deep then 64 * tiles + 8 * (y % 8) else 32 * tiles + 4 * (y % 8)
  }

  function ColumnBytes(s: Sprite, x: nat): nat {
    if s.deep then x / 8 * 64 + x % 8 else x / 8 * 32 + x % 8 / 2
  }

  /** A texel: a byte, or the low half of one for the left dot. */
  function Half(s: Sprite, b: Vram.Byte, x: nat): int {
    if s.deep then b else if x % 2 == 0 then b % 16 else b / 16
  }

  /** A picture maps every byte, a plain window sprite every row, and a rotated sprite its
      tile only; from there on they move a pointer. */
  lemma TexelBytes(m: Memory, s: Sprite, x: nat, y: nat)
    requires Fits(s)
    ensures var tile, row, column := m.sprMem + s.tile * m.unit, RowBytes(m, s, y), ColumnBytes(s, x);
            && (s.mode < 2 ==> PlainTexel(m, s, x, y) == Half(s, Through(m, tile + row + column, 0), x))
            && (s.mode == 2 ==> PlainTexel(m, s, x, y) == Half(s, Through(m, tile + row, column), x))
            && (s.mode < 3 || s.deep ==> TurnedTexel(m, s, x, y) == Half(s, Through(m, tile, row + column), x))
  {
    hide Through, Wide;
  }

  /** Where a bitmap starts: at a multiple of the unit, or at a cell of 8 by 8 dots in rows of
      256 or 128 dots; a dot takes two bytes. */
  function BitmapStart(m: Memory, s: Sprite): int {
    if m.bmpLinear then s.tile * m.bmpUnit
    else if m.bmpWide then 2 * (s.tile / 32 * 8 * 256 + s.tile % 32 * 8)
    else 2 * (s.tile / 16 * 8 * 128 + s.tile % 16 * 8)
  }

  /** Its rows are as wide as the sprite, or as the layout; for a rotated sprite as the layout
      only if that is the one of 256 dots. */
  function PlainRow(m: Memory, s: Sprite): nat {
    if m.bmpLinear then Wide(s) else if m.bmpWide then 256 else 128
  }

  function TurnedRow(m: Memory, s: Sprite): nat { if m.bmpWide && !m.bmpLinear then 256 else Wide(s) }

  /** The two bytes of a dot. */
  lemma BitmapDots(m: Memory, s: Sprite, x: nat, y: nat)
    requires Fits(s) && s.mode == 3
    ensures var start := m.sprMem + BitmapStart(m, s);
            && PlainTexel(m, s, x, y) == Word(m, start + 2 * (y * PlainRow(m, s) + x))
            && (!s.deep ==>
                  TurnedTexel(m, s, x, y) == Word(m, start + 2 * (y * TurnedRow(m, s) + x)))
  {
    hide Word, Wide;
  }

  /** A dot has its low byte first. */
  lemma WordsAreBytes(m: Memory, addr: int)
    ensures Word(m, addr) == Through(m, addr, 0) + 0x100 * Through(m, addr, 1)
  {
    hide Host;
  }

  /** Joined with the memory map: with bank A given to the sprites of engine A, or bank D to
      those of engine B, every byte comes from that bank. */
  lemma SpritesOfBanks(m: Memory, k: nat, ofs: nat)
    requires k < 0x2_0000
    ensures m.regs[0] == 0x82 && (forall b :: 1 <= b < 9 ==> m.regs[b] < 0x80) ==>
              Through(m, 0x0640_0000 + k, ofs) == m.lcd(k + ofs)
    ensures m.regs[3] == 0x84 && (forall b :: 0 <= b < 9 && b != 3 ==> m.regs[b] < 0x80) ==>
              Through(m, 0x0660_0000 + k, ofs) == m.lcd(0x6_0000 + k + ofs)
  {
    hide Vram.GpuOffset, Vram.Arm9Map;
    assert (0x0640_0000 + k) % 0x1_0000_0000 == 0x0640_0000 + k && (0x0660_0000 + k) % 0x1_0000_0000 == 0x0660_0000 + k;
    if m.regs[0] == 0x82 && forall b :: 1 <= b < 9 ==> m.regs[b] < 0x80 {
      VramPlaces.OneBank(m.regs, 0, 0x0640_0000 + k);
      assert VramPlaces.Canonical(0x0640_0000 + k) == 0x0640_0000 + k;
    }
    if m.regs[3] == 0x84 && forall b :: 0 <= b < 9 && b != 3 ==> m.regs[b] < 0x80 {
      VramPlaces.OneBank(m.regs, 3, 0x0660_0000 + k);
      assert VramPlaces.Canonical(0x0660_0000 + k) == 0x0660_0000 + k;
    }
  }

  /** What is drawn for a texel: the colour of a palette of 16, of the sprite's extended
      palette of 256 or of the one of 256, two bytes each; bitmaps bring their own colour,
      with an alpha from the palette field, and need its top bit. */
  lemma PicturesAre(m: Memory, s: Sprite, t: nat)
    requires Fits(s) && t < 0x1_0000
    ensures var offer := PlainOffer(m, s, t);
            && (s.mode < 2 && t == 0 ==> offer == Nothing)
            && (s.mode < 2 && t > 0 ==>
                  && offer.Pixel? && offer.alpha == 255 && offer.kind == s.mode && offer.noted == s.deep
                  && offer.colour == if !s.deep then m.colour(false, 2 * (16 * s.palette + t))
                                     else if m.extPal then m.colour(true, 2 * (256 * s.palette + t))
                                     else m.colour(false, 2 * t))
            && (s.mode == 2 ==> offer == if t > 0 then Shade(false) else Nothing)
            && (s.mode == 3 ==>
                  if t >= 0x8000 && s.palette > 0 then
                    offer.Pixel? && offer.colour == t && offer.alpha == s.palette + 1 && offer.kind == 3
                    && offer.noted
                  else offer == Nothing)
  {
  }

  /** A rotated sprite draws the same, but in 256 colours for the object window too, and in a
      bitmap with the palette field itself as alpha. */
  lemma TurnedPicturesAre(m: Memory, s: Sprite, t: nat)
    requires Fits(s) && t < 0x1_0000
    ensures var plain, turned := PlainOffer(m, s, t), TurnedOffer(m, s, t);
            && (s.mode < 2 && plain.Nothing? ==> turned == Nothing)
            && (s.mode < 2 && plain.Pixel? ==> turned == plain.(noted := false))
            && (s.mode == 2 && !s.deep ==> turned == if t > 0 then Shade(true) else Nothing)
            && (s.mode == 2 && s.deep && t > 0 ==> turned.Pixel? && turned.kind == 2)
            && (s.mode == 3 && !s.deep && plain.Nothing? ==> turned == Nothing)
            && (s.mode == 3 && !s.deep && plain.Pixel? ==> turned == plain.(noted := false, alpha := s.palette))
  {
  }

  /** The dot of a sprite in front replaces all but the window bit, and the number where it is
      noted; a later sprite of the same priority does not replace it. */
  lemma PuttingIs(cell: Cell, i: nat, prio: int, colour: int, alpha: int, kind: int, noted: bool)
    ensures var r := Put(cell, i, prio, Pixel(colour, alpha, kind, noted));
            && (prio >= cell.prio ==> r == cell)
            && (prio < cell.prio ==>
                  && r.colour == colour && r.alpha == alpha && r.kind == kind && r.prio == prio
                  && r.win == cell.win && r.num == if noted then i else cell.num)
  {
  }

  /** Where no sprite has anything the column is as the line began: the backdrop, with
      nothing of a sprite but a number left over. */
  lemma {:induction false} NobodyThere(m: Memory, oam: Oam, l: int, c: int, n: nat)
    requires n <= SPRITES && forall j: nat :: j < n ==> OfferAt(m, oam, j, l, c) == Nothing
    ensures Column(m, oam, l, c, n) == Cell(m.backdrop, 0, 0, 255, false, m.numbers(c))
  {
    hide OfferAt;
    if n > 0 { NobodyThere(m, oam, l, c, n - 1); }
  }

  /** There is one sprite in front, if any. */
  lemma FrontIsUnique(m: Memory, oam: Oam, l: int, c: int, n: nat, i: nat, j: nat)
    requires n <= SPRITES && Front(m, oam, l, c, n, i) && Front(m, oam, l, c, n, j)
    ensures i == j
  {
    hide OfferAt;
  }
}
