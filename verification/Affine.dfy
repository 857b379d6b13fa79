/**
 The affine renderer (source/GPU.cpp rot_scale_op): a fixed-point walk over the
 background with a shortcut for the unrotated, unscaled case.
 */
module Affine {
  import opened Arith

  /** One call of the pixel function: the dot of the background and the column. */
  datatype Call = Call(x: int, y: int, i: nat)

  /** A background size: a power of two up to 1024, so that a mask by `size - 1` is
      a remainder. */
  predicate Size(w: int) { 0 < w <= 1024 && 0x10_0000 % w == 0 }

  /** The sizes of affine backgrounds qualify. */
  lemma SizesQualify(w: int)
    requires w in {128, 256, 512, 1024}
    ensures Size(w)
  {
  }

  /** A 32-bit sum, in two's complement. */
  function Wrap32(v: int): (r: int)
    ensures -0x8000_0000 <= r < 0x8000_0000
  {
    (v + 0x8000_0000) % 0x1_0000_0000 - 0x8000_0000
  }

  /** The Integer field of ROTOCOORD: bits 8 to 27, signed. */
  function Integer(v: int): (r: int)
    ensures -0x8_0000 <= r < 0x8_0000
  {
    (v / 0x100 + 0x8_0000) % 0x10_0000 - 0x8_0000
  }

  // ------------------------------------------ the meaning

  /** Where column `i` of the line falls, without any 32-bit register. */
  function Dot(start: int, step: int, i: nat, wrap: bool, size: int): int
    requires Size(size)
  {
    var c := Integer(start + i * step);
    if wrap then c % size else c
  }

  predicate Inside(c: int, size: int) { 0 <= c < size }

  /** The calls of the first `n` columns. */
  function Calls(x: int, y: int, dx: int, dy: int, wrap: bool, wh: int, ht: int, n: nat): seq<Call>
    requires Size(wh) && Size(ht)
  {
    if n == 0 then []
    else
      var cx, cy := Dot(x, dx, n - 1, wrap, wh), Dot(y, dy, n - 1, wrap, ht);
      Calls(x, y, dx, dy, wrap, wh, ht, n - 1) + if Inside(cx, wh) && Inside(cy, ht) then [Call(cx, cy, n - 1)] else []
  }

  /** A coordinate of n dots and some 256ths lies on dot n, for 20-bit n; a dot outside is
      taken modulo the size if the background wraps. */
  lemma CoordinateIs(n: int, fraction: nat, wrap: bool, size: int)
    requires -0x8_0000 <= n < 0x8_0000 && fraction < 0x100 && Size(size)
    ensures Dot(0x100 * n + fraction, 0, 0, wrap, size) == if wrap then n % size else n
  {
  }

  /** Each column is one step further. */
  lemma ColumnsAreSteps(n: int, k: int, i: nat, size: int)
    requires -0x8_0000 <= n + i * k < 0x8_0000 && Size(size)
    ensures Dot(0x100 * n, 0x100 * k, i, false, size) == n + i * k
  {
    assert 0x100 * n + i * (0x100 * k) == 0x100 * (n + i * k);
  }

  /** A dot is drawn just when it is the dot of its column and lies inside. */
  lemma {:induction false} CallsAreDots(x: int, y: int, dx: int, dy: int, wrap: bool, wh: int, ht: int, n: nat, c: Call)
    requires Size(wh) && Size(ht)
    ensures c in Calls(x, y, dx, dy, wrap, wh, ht, n)
       <==> && c.i < n && c.x == Dot(x, dx, c.i, wrap, wh) && c.y == Dot(y, dy, c.i, wrap, ht)
            && 0 <= c.x < wh && 0 <= c.y < ht
  {
    hide Dot, Size;
    if n > 0 {
      CallsAreDots(x, y, dx, dy, wrap, wh, ht, n - 1, c);
    }
  }

  // ------------------------------------------ the renderer

  /** rot_scale_op: `wrap` is its template parameter WRAP. */
  method RotScale(x0: int, y0: int, dx: int, dy: int, wrap: bool, wh: int, ht: int, len: nat) returns (log: seq<Call>)
    requires Size(wh) && Size(ht)
    ensures log == Calls(x0, y0, dx, dy, wrap, wh, ht, len)
  {
    log := [];
    if dx == 0x100 && dy == 0 {
      var auxX, auxY := Integer(x0), Integer(y0);
      if wrap || (auxX + len < wh && auxX >= 0 && auxY < ht && auxY >= 0) {
        if wrap {
          auxX, auxY := auxX % wh, auxY % ht;
        }
        log := Unrotated(x0, y0, auxX, auxY, wrap, wh, ht, len);
        return;
      }
    }
    log := General(x0, y0, dx, dy, wrap, wh, ht, len);
  }

  /** The shortcut: along one row, a dot a column. */
  method Unrotated(ghost x0: int, ghost y0: int, x: int, y: int, wrap: bool, wh: int, ghost ht: int, len: nat)
    returns (log: seq<Call>)
    requires Size(wh) && Size(ht)
    requires x == Dot(x0, 0x100, 0, wrap, wh) && y == Dot(y0, 0, 0, wrap, ht)
    requires wrap || (0 <= x && x + len < wh && Inside(y, ht))
    ensures log == Calls(x0, y0, 0x100, 0, wrap, wh, ht, len)
  {
    hide Dot;
    log := [];
    var auxX, i: nat := x, 0;
    while i < len
      invariant i <= len && log == Calls(x0, y0, 0x100, 0, wrap, wh, ht, i)
      invariant auxX == if wrap then Dot(x0, 0x100, i, wrap, wh) else x + i
    {
      NextDot(x0, i, wrap, wh, x);
      SameRow(y0, i, wrap, ht);
      log := log + [Call(auxX, y, i)];
      auxX := auxX + 1;
      if wrap { auxX := auxX % wh; }
      i := i + 1;
    }
  }

  /** The general loop, on 32-bit coordinates. */
  method General(x0: int, y0: int, dx: int, dy: int, wrap: bool, wh: int, ht: int, len: nat) returns (log: seq<Call>)
    requires Size(wh) && Size(ht)
    ensures log == Calls(x0, y0, dx, dy, wrap, wh, ht, len)
  {
    hide Wrap32, Integer;
    log := [];
    var x, y, i: nat := x0, y0, 0;
    while i < len
      invariant i <= len && log == Calls(x0, y0, dx, dy, wrap, wh, ht, i)
      invariant Integer(x) == Integer(x0 + i * dx) && Same32(x, x0 + i * dx)
      invariant Integer(y) == Integer(y0 + i * dy) && Same32(y, y0 + i * dy)
    {
      var auxX, auxY := Integer(x), Integer(y);
      if wrap {
        auxX, auxY := auxX % wh, auxY % ht;
      }
      if wrap || (auxX >= 0 && auxX < wh && auxY >= 0 && auxY < ht) {
        log := log + [Call(auxX, auxY, i)];
      }
      StepKeeps(x, x0, dx, i);
      StepKeeps(y, y0, dy, i);
      x, y := Wrap32(x + dx), Wrap32(y + dy);
      i := i + 1;
    }
  }

  // ------------------------------------------ why they agree

  /** Equal as 32-bit words. */
  predicate Same32(a: int, b: int) { (a - b) % 0x1_0000_0000 == 0 }

  /** The field ignores what lies above the register. */
  lemma FieldOfWord(a: int, b: int)
    requires Same32(a, b)
    ensures Integer(a) == Integer(b)
  {
    var k := (a - b) / 0x1_0000_0000;
    assert a == b + 0x100 * (0x100_0000 * k);
    assert a / 0x100 == b / 0x100 + 0x10 * k * 0x10_0000;
  }

  lemma StepKeeps(v: int, v0: int, d: int, i: nat)
    requires Same32(v, v0 + i * d)
    ensures Same32(Wrap32(v + d), v0 + (i + 1) * d)
    ensures Integer(Wrap32(v + d)) == Integer(v0 + (i + 1) * d)
  {
    assert v0 + (i + 1) * d == v0 + i * d + d;
    var w := v0 + i * d;
    assert Same32(Wrap32(v + d), w + d);
    FieldOfWord(Wrap32(v + d), w + d);
  }

  /** Along x the field counts columns, modulo the size even where it overflows. */
  lemma NextDot(x0: int, i: nat, wrap: bool, wh: int, x: int)
    requires Size(wh) && x == Dot(x0, 0x100, 0, wrap, wh)
    ensures wrap ==> Dot(x0, 0x100, i + 1, wrap, wh) == (Dot(x0, 0x100, i, wrap, wh) + 1) % wh
    ensures wrap ==> Inside(Dot(x0, 0x100, i, wrap, wh), wh)
    ensures !wrap && 0 <= x && x + i < wh ==> Dot(x0, 0x100, i, wrap, wh) == x + i
  {
    DotField(x0, i, wrap, wh);
    DotField(x0, i + 1, wrap, wh);
    DotField(x0, 0, wrap, wh);
    var f := x0 / 0x100;
    if wrap {
      Successor(f + i, wh);
      hide *;
    } else if 0 <= x && x + i < wh {
      NoOverflow(f, i);
    }
  }

  lemma NoOverflow(f: int, i: nat)
    requires 0 <= Signed20(f) && Signed20(f) + i < 0x8_0000
    ensures Signed20(f + i) == Signed20(f) + i
  {
    QuotientIs(f + i + 0x8_0000, 0x10_0000, (f + 0x8_0000) / 0x10_0000);
  }

  lemma DotField(x0: int, i: nat, wrap: bool, w: int)
    requires Size(w)
    ensures Dot(x0, 0x100, i, wrap, w) == if wrap then (x0 / 0x100 + i) % w else Signed20(x0 / 0x100 + i)
  {
    ColumnField(x0, i);
    FieldModulo(x0 / 0x100 + i, w);
    hide Integer, Signed20;
  }

  lemma Successor(f: int, w: int)
    requires w > 0
    ensures (f + 1) % w == (f % w + 1) % w && 0 <= f % w < w
  {
    Division(f, w);
    Wraps(f % w + 1, w, f / w);
  }

  /** A 20-bit signed number. */
  function Signed20(f: int): int { (f + 0x8_0000) % 0x10_0000 - 0x8_0000 }

  lemma ColumnField(x0: int, i: nat)
    ensures Integer(x0 + i * 0x100) == Signed20(x0 / 0x100 + i)
  {
    Wraps(x0, 0x100, i);
  }

  lemma FieldModulo(f: int, w: int)
    requires Size(w)
    ensures Signed20(f) % w == f % w
  {
    var k, m := (f + 0x8_0000) / 0x10_0000, 0x10_0000 / w;
    Division(0x10_0000, w);
    assert f == Signed20(f) + k * 0x10_0000 && 0x10_0000 == m * w;
    assert k * 0x10_0000 == k * m * w by { hide Signed20; Product(k, m, w); }
    Wraps(Signed20(f), w, k * m);
  }

  lemma Product(k: int, m: int, w: int)
    ensures k * (m * w) == k * m * w
  {
  }

  lemma SameRow(y0: int, i: nat, wrap: bool, ht: int)
    requires Size(ht)
    ensures Dot(y0, 0, i, wrap, ht) == Dot(y0, 0, 0, wrap, ht)
    ensures wrap ==> Inside(Dot(y0, 0, i, wrap, ht), ht)
  {
  }

  // ------------------------------------------ a frame

  /** The registers enter the calls as 32-bit words. */
  lemma {:induction false} CallsOfWord(a: int, b: int, y: int, v: int, dx: int, dy: int, wrap: bool, wh: int, ht: int,
        n: nat)
    requires Size(wh) && Size(ht) && Same32(a, b) && Same32(y, v)
    ensures Calls(a, y, dx, dy, wrap, wh, ht, n) == Calls(b, v, dx, dy, wrap, wh, ht, n)
  {
    if n > 0 {
      CallsOfWord(a, b, y, v, dx, dy, wrap, wh, ht, n - 1);
      assert a + (n - 1) * dx - (b + (n - 1) * dx) == a - b;
      assert y + (n - 1) * dy - (v + (n - 1) * dy) == y - v;
      FieldOfWord(a + (n - 1) * dx, b + (n - 1) * dx);
      FieldOfWord(y + (n - 1) * dy, v + (n - 1) * dy);
      hide Integer;
    }
  }

  /** A rotated background, drawn line by line from its reference point. */
  class RotLayer {
    var x: int                    // BGxX, updated after every line
    var y: int                    // BGxY
    const pa: int
    const pb: int
    const pc: int
    const pd: int
    ghost const x0: int
    ghost const y0: int
    ghost var lines: nat

    ghost predicate Valid() reads this { Same32(x, x0 + lines * pb) && Same32(y, y0 + lines * pd) }

    constructor (x: int, y: int, pa: int, pb: int, pc: int, pd: int)
      ensures Valid() && lines == 0 && x0 == x && y0 == y
      ensures this.pa == pa && this.pb == pb && this.pc == pc && this.pd == pd
    {
      this.x, this.y, this.pa, this.pb, this.pc, this.pd := x, y, pa, pb, pc, pd;
      x0, y0, lines := x, y, 0;
    }

    /** lineRot: column `i` of line `j` shows the dot (x0, y0) + i * (pa, pc) + j * (pb, pd). */
    method LineRot(wrap: bool, wh: int, ht: int) returns (log: seq<Call>)
      requires Valid() && Size(wh) && Size(ht)
      modifies `x, `y, `lines
      ensures Valid() && lines == old(lines) + 1
      ensures log == Calls(x0 + old(lines) * pb, y0 + old(lines) * pd, pa, pc, wrap, wh, ht, 256)
    {
      hide Calls, Integer, Wrap32, Same32;
      log := RotScale(x, y, pa, pc, wrap, wh, ht, 256);
      CallsOfWord(x, x0 + lines * pb, y, y0 + lines * pd, pa, pc, wrap, wh, ht, 256);
      StepKeeps(x, x0, pb, lines);
      StepKeeps(y, y0, pd, lines);
      x := Wrap32(x + pb);
      y := Wrap32(y + pd);
      lines := lines + 1;
    }
  }
}
