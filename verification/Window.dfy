/**
 The 2D windows (source/GPU.cpp update_winh, setup_windows and
 renderline_checkWindows, source/GPU.h GPU_setWIN*): a mask of columns cached
 behind a dirty flag, against the definition of the window.
 */
module Window {

  const COLUMNS := 256

  type Byte = b: int | 0 <= b < 0x100

  /** Inside a span that may wrap around: from `start` up to `end`, exclusive,
      unless it wraps, and then `end` belongs to it. */
  predicate InSpan(start: int, end: int, v: int) {
    if start > end then !(v < start && v > end) else !(v < start || v >= end)
  }

  /** The span as a walk around the 256 positions. */
  lemma SpanIsCyclic(start: Byte, end: Byte, v: Byte)
    ensures InSpan(start, end, v) <==> (v - start) % 0x100 < (end - start) % 0x100 || (start > end && v == end)
  {
    Around(start, v);
    Around(start, end);
  }

  lemma Around(a: Byte, b: Byte)
    ensures (b - a) % 0x100 == if b >= a then b - a else b - a + 0x100
  {
  }

  /** One rectangular window. */
  class Rect {
    var enabled: bool
    var startX: Byte
    var endX: Byte
    var startY: Byte
    var endY: Byte
    var stale: bool               // need_update_winh
    var live: bool                // curr_win is h_win, not win_empty
    const columns: array<bool>    // h_win

    /** The cache agrees with the registers unless it is marked stale. */
    ghost predicate Valid()
      reads this, columns
    {
      columns.Length == COLUMNS && (!stale ==> Fresh())
    }

    ghost predicate Fresh()
      requires columns.Length == COLUMNS
      reads this, columns
    {
      forall x :: 0 <= x < COLUMNS ==> columns[x] == InSpan(startX, endX, x)
    }

    /** What the window means at column `x` of line `y`. */
    ghost predicate Covers(x: int, y: int)
      reads this
    {
      enabled && InSpan(startY, endY, y) && InSpan(startX, endX, x)
    }

    /** GPU_Reset clears the flag as well as the cache and the registers. */
    constructor ()
      ensures Valid() && fresh(columns) && !stale && !enabled
    {
      enabled, startX, endX, startY, endY, stale, live := false, 0, 0, 0, 0, false, false;
      columns := new bool[COLUMNS](_ => false);
    }

    /** GPU_setWIN0_H and GPU_setWIN1_H */
    method SetH(val: int)
      requires Valid() && 0 <= val < 0x1_0000
      modifies `startX, `endX, `stale
      ensures Valid() && startX == val / 0x100 && endX == val % 0x100 && stale
    {
      startX := val / 0x100;
      endX := val % 0x100;
      stale := true;
    }

    method SetH0(val: Byte)
      requires Valid()
      modifies `startX, `stale
      ensures Valid() && startX == val && stale
    {
      startX := val;
      stale := true;
    }

    method SetH1(val: Byte)
      requires Valid()
      modifies `endX, `stale
      ensures Valid() && endX == val && stale
    {
      endX := val;
      stale := true;
    }

    /** GPU_setWIN0_V and GPU_setWIN1_V: the vertical span is not cached. */
    method SetV(val: int)
      requires Valid() && 0 <= val < 0x1_0000
      modifies `startY, `endY
      ensures Valid() && startY == val / 0x100 && endY == val % 0x100
    {
      startY := val / 0x100;
      endY := val % 0x100;
    }

    /** GPU_setVideoProp, for one window. */
    method SetEnabled(on: bool)
      requires Valid()
      modifies `enabled
      ensures Valid() && enabled == on
    {
      enabled := on;
    }

    /** update_winh: a window that is off stays stale. */
    method Update()
      requires Valid()
      modifies `stale, columns
      ensures Valid() && stale == (old(stale) && !enabled)
    {
      if !enabled { return; }
      stale := false;
      if startX > endX {
        Fill(0, endX + 1, true);
        Fill(endX + 1, startX, false);
        Fill(startX, COLUMNS, true);
      } else {
        Fill(0, startX, false);
        Fill(startX, endX, true);
        Fill(endX, COLUMNS, false);
      }
    }

    /** One of the loops of update_winh. */
    method Fill(from: int, to: int, value: bool)
      requires columns.Length == COLUMNS && 0 <= from <= to <= COLUMNS
      modifies columns
      ensures forall x :: 0 <= x < COLUMNS ==> columns[x] == if from <= x < to then value else old(columns[x])
    {
      for i := from to to
        invariant forall x :: 0 <= x < COLUMNS ==> columns[x] == if from <= x < i then value else old(columns[x])
      {
        columns[i] := value;
      }
    }

    /** setup_windows */
    method Setup(y: int)
      modifies `live
      ensures live == (enabled && InSpan(startY, endY, y))
    {
      live := false;
      if !enabled { return; }
      if startY > endY {
        if y < startY && y > endY { return; }
      } else {
        if y < startY || y >= endY { return; }
      }
      live := true;
    }

    /** withinRect */
    predicate Within(x: int)
      requires columns.Length == COLUMNS && 0 <= x < COLUMNS
      reads this, columns
    {
      live && columns[x]
    }
  }

  /** The windows of one 2D engine. */
  class Windows {
    const win0: Rect
    const win1: Rect
    var objEnabled: bool
    const sprWin: array<bool>     // columns of the line with an opaque window sprite
    var in0: Byte                 // WININ0, WININ1, WINOBJ, WINOUT: bit 5 enables effects
    var in1: Byte
    var obj: Byte
    var outside: Byte

    ghost predicate Valid()
      reads this, win0, win1, win0.columns, win1.columns, sprWin
    {
      && win0.Valid() && win1.Valid() && win0 != win1 && sprWin.Length == COLUMNS
      && win0.columns != win1.columns && win0.columns != sprWin && win1.columns != sprWin
    }

    /** The masks stand for line `y`. */
    ghost predicate Ready(y: int)
      requires Valid()
      reads this, win0, win1, win0.columns, win1.columns, sprWin
    {
      && (forall x :: 0 <= x < COLUMNS ==> win0.Within(x) == win0.Covers(x, y))
      && (forall x :: 0 <= x < COLUMNS ==> win1.Within(x) == win1.Covers(x, y))
    }

    constructor ()
      ensures Valid() && fresh(win0) && fresh(win1) && fresh(win0.columns) && fresh(win1.columns) && fresh(sprWin)
    {
      win0 := new Rect();
      win1 := new Rect();
      sprWin := new bool[COLUMNS](_ => false);
      objEnabled, in0, in1, obj, outside := false, 0, 0, 0, 0;
    }

    /** The start of GPU_RenderLine: after it the masks are the definition,
        whatever was written before. */
    method BeginLine(y: int)
      requires Valid()
      modifies win0`stale, win0`live, win0.columns, win1`stale, win1`live, win1.columns
      ensures Valid() && Ready(y)
    {
      if win0.stale { win0.Update(); }
      if win1.stale { win1.Update(); }
      win0.Setup(y);
      win1.Setup(y);
    }

    /** Which register rules a dot: the first window it lies in. */
    ghost function Ruling(x: int, y: int): Byte
      requires Valid() && 0 <= x < COLUMNS
      reads this, win0, win1, win0.columns, win1.columns, sprWin
    {
      if win0.Covers(x, y) then in0
      else if win1.Covers(x, y) then in1
      else if objEnabled && sprWin[x] then obj
      else outside
    }

    /** renderline_checkWindows for layer `bg`; `drawn` and `shaded` are the values
        passed in, kept when no window is on. */
    method Check(x: int, ghost y: int, bg: nat, drawn: bool, shaded: bool) returns (draw: bool, effect: bool)
      requires Valid() && Ready(y) && 0 <= x < COLUMNS && bg < 6
      ensures win0.enabled || win1.enabled || objEnabled ==>
                draw == Shows(Ruling(x, y), bg) && effect == Bit(Ruling(x, y), 5)
      ensures !(win0.enabled || win1.enabled || objEnabled) ==> draw == drawn && effect == shaded
    {
      draw, effect := drawn, shaded;
      if win0.Within(x) { return Shows(in0, bg), Bit(in0, 5); }
      if win1.Within(x) { return Shows(in1, bg), Bit(in1, 5); }
      if objEnabled {
        if sprWin[x] { return Shows(obj, bg), Bit(obj, 5); }
      }
      if objEnabled || win1.enabled || win0.enabled {
        draw, effect := Shows(outside, bg), Bit(outside, 5);
      }
    }
  }

  /** Five layers have a bit; the backdrop, layer 5, has none. */
  predicate Shows(b: Byte, bg: nat)
    requires bg < 6
  {
    bg < 5 && Bit(b, bg)
  }

  predicate Bit(b: Byte, n: nat)
    requires n < 6
  {
    b / [1, 2, 4, 8, 16, 32][n] % 2 == 1
  }

  /** The bits of a window register are those of its low six: four backgrounds, the
      sprites and the effects, from the lowest on. */
  lemma BitsMakeRegister(b: Byte)
    ensures b % 64 == (if Bit(b, 0) then 1 else 0) + (if Bit(b, 1) then 2 else 0) + (if Bit(b, 2) then 4 else 0)
                    + (if Bit(b, 3) then 8 else 0) + (if Bit(b, 4) then 16 else 0) + (if Bit(b, 5) then 32 else 0)
    ensures (forall bg: nat :: bg < 5 ==> Shows(b, bg) == Bit(b, bg)) && !Shows(b, 5)
  {
    hide Bit;
    BitIs(b);
    Halved(b, 2);
    Halved(b, 4);
    Halved(b, 8);
    Halved(b, 16);
    Halved(b, 32);
  }

  lemma Halved(b: Byte, place: int)
    requires place in {2, 4, 8, 16, 32}
    ensures b / place == 2 * (b / (2 * place)) + b / place % 2
  {
  }

  lemma BitIs(b: Byte)
    ensures Bit(b, 0) == (b % 2 == 1) && Bit(b, 1) == (b / 2 % 2 == 1) && Bit(b, 2) == (b / 4 % 2 == 1)
    ensures Bit(b, 3) == (b / 8 % 2 == 1) && Bit(b, 4) == (b / 16 % 2 == 1) && Bit(b, 5) == (b / 32 % 2 == 1)
  {
  }
}
