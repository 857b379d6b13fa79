/**
 Composing a line of a 2D engine (source/GPU.cpp GPU_resortBGs and
 GPU_RenderLine_layer): the backgrounds sorted into lists by priority, then painted
 over each other from the lowest priority to the highest.
 */
module Layers {
  import Sprites

  const COLUMNS := 256
  const OBJ := 4                  // the sprite layer
  const BACKDROP := 5

  type Enables = e: seq<bool> | |e| == 5 witness [false, false, false, false, false]
  type Priorities = p: seq<int> | |p| == 4 && forall i :: 0 <= i < 4 ==> 0 <= p[i] < 4 witness [0, 0, 0, 0]

  /** What a line is made of: which layers are on, the priorities of the
      backgrounds, which layer would write a column (an opaque dot that the windows
      let through) and the priority of the sprite dot of each column. */
  datatype Scene = Scene(on: Enables, prio: Priorities, paints: (int, int) -> bool, sprPrio: seq<int>)

  predicate Sound(s: Scene) { |s.sprPrio| == COLUMNS && forall x :: 0 <= x < COLUMNS ==> 0 <= s.sprPrio[x] < 0x100 }

  // ------------------------------------------ the meaning of a column

  /** A layer with something to show in a column. */
  predicate Painter(s: Scene, x: int, layer: int)
    requires Sound(s) && 0 <= x < COLUMNS
  {
    if 0 <= layer < 4 then s.on[layer] && s.paints(layer, x)
    else layer == OBJ && s.on[OBJ] && s.sprPrio[x] < 4 && s.paints(OBJ, x)
  }

  /** Layers are ranked by priority, then sprites before backgrounds, then by
      number: the least rank is in front. */
  function Rank(s: Scene, x: int, layer: int): int
    requires Sound(s) && 0 <= x < COLUMNS && 0 <= layer <= OBJ
  {
    5 * Priority(s, x, layer) + if layer == OBJ then 0 else 1 + layer
  }

  function Priority(s: Scene, x: int, layer: int): int
    requires Sound(s) && 0 <= x < COLUMNS && 0 <= layer <= OBJ
  {
    if layer == OBJ then s.sprPrio[x] else s.prio[layer]
  }

  /** `top` is the layer in front. */
  predicate InFront(s: Scene, x: int, top: int)
    requires Sound(s) && 0 <= x < COLUMNS
  {
    if top == BACKDROP then forall v :: 0 <= v <= OBJ ==> !Painter(s, x, v)
    else
      && 0 <= top <= OBJ && Painter(s, x, top)
      && forall v :: 0 <= v <= OBJ && Painter(s, x, v) && v != top ==> Rank(s, x, top) < Rank(s, x, v)
  }

  // ------------------------------------------ the order of painting

  /** The backgrounds of priority `p` numbered `k` and above, the highest first. */
  function ListOf(on: Enables, prio: Priorities, p: int, k: int): (r: seq<int>)
    requires 0 <= k <= 4
    decreases 4 - k
  {
    if k == 4 then []
    else ListOf(on, prio, p, k + 1) + if on[k] && prio[k] == p then [k] else []
  }

  /** The backgrounds of a list painted over a column. */
  function PaintList(s: Scene, x: int, list: seq<int>, top: int): int {
    if list == [] then top
    else
      var bg := list[|list| - 1];
      if s.paints(bg, x) then bg else PaintList(s, x, list[..|list| - 1], top)
  }

  /** A column after the priorities from 3 down to `p`. */
  function TopAfter(s: Scene, x: int, p: int): int
    requires Sound(s) && 0 <= x < COLUMNS && 0 <= p <= 4
    decreases 4 - p
  {
    if p == 4 then BACKDROP
    else
      var top := PaintList(s, x, ListOf(s.on, s.prio, p, 0), TopAfter(s, x, p + 1));
      if s.on[OBJ] && s.sprPrio[x] == p && s.paints(OBJ, x) then OBJ else top
  }

  /** `r` is the lowest-numbered painter of a list, or what was there before. */
  predicate Lowest(s: Scene, x: int, p: int, k: int, before: int, r: int)
    requires 0 <= k <= 4
  {
    || (r == before && forall v :: k <= v < 4 && s.on[v] && s.prio[v] == p ==> !s.paints(v, x))
    || (k <= r < 4 && s.on[r] && s.prio[r] == p && s.paints(r, x)
        && forall v :: k <= v < r && s.on[v] && s.prio[v] == p ==> !s.paints(v, x))
  }

  lemma {:induction false} ListLeavesLowest(s: Scene, x: int, p: int, k: int, top: int)
    requires 0 <= k <= 4
    ensures Lowest(s, x, p, k, top, PaintList(s, x, ListOf(s.on, s.prio, p, k), top))
    decreases 4 - k
  {
    if k < 4 {
      ListLeavesLowest(s, x, p, k + 1, top);
      var list := ListOf(s.on, s.prio, p, k);
      if s.on[k] && s.prio[k] == p {
        assert list[..|list| - 1] == ListOf(s.on, s.prio, p, k + 1);
      } else {
        assert list == ListOf(s.on, s.prio, p, k + 1);
      }
    }
  }

  /** The layer in front among those of priority `p` and lower. */
  predicate InFrontFrom(s: Scene, x: int, p: int, top: int)
    requires Sound(s) && 0 <= x < COLUMNS
  {
    if top == BACKDROP then forall v :: 0 <= v <= OBJ && Painter(s, x, v) ==> Priority(s, x, v) < p
    else
      && 0 <= top <= OBJ && Painter(s, x, top) && Priority(s, x, top) >= p
      && forall v :: 0 <= v <= OBJ && Painter(s, x, v) && v != top && Priority(s, x, v) >= p ==>
           Rank(s, x, top) < Rank(s, x, v)
  }

  lemma {:induction false} TopIsInFront(s: Scene, x: int, p: int)
    requires Sound(s) && 0 <= x < COLUMNS && 0 <= p <= 4
    ensures InFrontFrom(s, x, p, TopAfter(s, x, p))
    decreases 4 - p
  {
    if p == 4 {
      assert TopAfter(s, x, p) == BACKDROP;
    } else {
      hide InFrontFrom, Lowest, PaintList, ListOf;
      var before := TopAfter(s, x, p + 1);
      TopIsInFront(s, x, p + 1);
      ListLeavesLowest(s, x, p, 0, before);
      OnePriority(s, x, p, before, PaintList(s, x, ListOf(s.on, s.prio, p, 0), before));
    }
  }

  /** One priority painted: its backgrounds, then its sprites. */
  lemma OnePriority(s: Scene, x: int, p: int, before: int, top: int)
    requires Sound(s) && 0 <= x < COLUMNS && 0 <= p < 4
    requires InFrontFrom(s, x, p + 1, before) && Lowest(s, x, p, 0, before, top)
    ensures InFrontFrom(s, x, p, if s.on[OBJ] && s.sprPrio[x] == p && s.paints(OBJ, x) then OBJ else top)
  {
  }

  /** Painting from the back leaves the layer in front. */
  lemma LineShowsFront(s: Scene, x: int)
    requires Sound(s) && 0 <= x < COLUMNS
    ensures InFront(s, x, TopAfter(s, x, 0))
  {
    TopIsInFront(s, x, 0);
    hide TopAfter;
  }

  /** A background with a dot in the column. */
  predicate BgPaints(s: Scene, x: int, bg: int)
    requires 0 <= bg < 4
  {
    s.on[bg] && s.paints(bg, x)
  }

  /** A sprite with a dot there. */
  predicate SpritePaints(s: Scene, x: int)
    requires Sound(s) && 0 <= x < COLUMNS
  {
    s.on[4] && s.sprPrio[x] <= 3 && s.paints(4, x)
  }

  /** A sprite is seen exactly if no background there has a lower priority number; a
      background exactly if no sprite has its number or a lower one, and every other
      background there a higher one, or the same and a higher place; and the backdrop where
      there is none of them. */
  lemma WhoIsSeen(s: Scene, x: int)
    requires Sound(s) && 0 <= x < COLUMNS
    ensures var top := TopAfter(s, x, 0);
            && (top == 4 <==>
                  SpritePaints(s, x) && forall b :: 0 <= b < 4 && BgPaints(s, x, b) ==> s.sprPrio[x] <= s.prio[b])
            && (forall bg :: 0 <= bg < 4 ==>
                  (top == bg <==>
                    && BgPaints(s, x, bg) && (SpritePaints(s, x) ==> s.prio[bg] < s.sprPrio[x])
                    && forall b :: 0 <= b < 4 && b != bg && BgPaints(s, x, b) ==>
                         s.prio[bg] < s.prio[b] || (s.prio[bg] == s.prio[b] && bg < b)))
            && (top == 5 <==> !SpritePaints(s, x) && forall b :: 0 <= b < 4 ==> !BgPaints(s, x, b))
  {
    LineShowsFront(s, x);
    hide TopAfter;
    assert forall b :: 0 <= b < 4 ==> (Painter(s, x, b) <==> BgPaints(s, x, b));
    assert Painter(s, x, 4) <==> SpritePaints(s, x);
  }

  lemma FrontIsUnique(s: Scene, x: int, a: int, b: int)
    requires Sound(s) && 0 <= x < COLUMNS && InFront(s, x, a) && InFront(s, x, b)
    ensures a == b
  {
    if a != BACKDROP { assert Painter(s, x, a); }
    if b != BACKDROP { assert Painter(s, x, b); }
  }

  // ------------------------------------------ the renderer

  /** The columns below `n` whose sprite dot has priority `p`. */
  function PixelsOf(sprPrio: seq<int>, p: int, n: nat): (r: seq<int>)
    requires n <= |sprPrio|
    ensures forall x :: x in r <==> 0 <= x < n && sprPrio[x] == p
  {
    if n == 0 then [] else PixelsOf(sprPrio, p, n - 1) + if sprPrio[n - 1] == p then [n - 1] else []
  }

  class Compositor {
    var on: Enables               // LayersEnable
    ghost var prio: Priorities    // the priorities when the lists were made
    var lists: seq<seq<int>>      // itemsForPriority: BGs
    var pixels: seq<seq<int>>     // itemsForPriority: PixelsX
    var bg0First: bool            // bg0HasHighestPrio
    const top: array<int>         // bgPixels, the last layer written to a column

    ghost predicate Valid()
      reads this
    {
      top.Length == COLUMNS && |lists| == 4 && forall p :: 0 <= p < 4 ==> lists[p] == ListOf(on, prio, p, 0)
    }

    constructor ()
      ensures Valid() && fresh(top)
    {
      on, prio, pixels := [false, false, false, false, false], [0, 0, 0, 0], [[], [], [], []];
      lists, bg0First := [[], [], [], []], true;
      top := new int[COLUMNS];
    }

    /** GPU_resortBGs: a layer the user unticks is shown when the game hides it. */
    method ResortBGs(config: Enables, dispcnt: Enables, bgPrio: Priorities)
      requires top.Length == COLUMNS
      modifies `on, `prio, `lists, `bg0First
      ensures bg0First <==> forall i :: 1 <= i < 4 && on[i] ==> bgPrio[0] <= bgPrio[i]
      ensures Valid() && prio == bgPrio && forall i :: 0 <= i < 5 ==> on[i] == (config[i] == dispcnt[i])
    {
      on := seq(5, i requires 0 <= i < 5 => config[i] != !dispcnt[i]);
      prio := bgPrio;
      lists := [[], [], [], []];
      var i := 4;
      while i > 0
        modifies `lists
        invariant 0 <= i <= 4 && |lists| == 4
        invariant forall p :: 0 <= p < 4 ==> lists[p] == ListOf(on, prio, p, i)
      {
        i := i - 1;
        if on[i] {
          var p := bgPrio[i];
          lists := lists[p := lists[p] + [i]];
        }
      }
      bg0First := true;
      for j := 1 to 4
        invariant bg0First && forall i :: 1 <= i < j && on[i] ==> bgPrio[0] <= bgPrio[i]
      {
        if on[j] && bgPrio[j] < bgPrio[0] {
          bg0First := false;
          break;
        }
      }
    }

    /** The sprite dots of the line sorted by priority. */
    method SortPixels(sprPrio: seq<int>)
      requires |sprPrio| == COLUMNS && forall x :: 0 <= x < COLUMNS ==> 0 <= sprPrio[x]
      modifies `pixels
      ensures |pixels| == 4 && forall p :: 0 <= p < 4 ==> pixels[p] == PixelsOf(sprPrio, p, COLUMNS)
    {
      pixels := [[], [], [], []];
      for i := 0 to COLUMNS
        invariant |pixels| == 4 && forall p :: 0 <= p < 4 ==> pixels[p] == PixelsOf(sprPrio, p, i)
      {
        var p := sprPrio[i];
        if p < 4 { pixels := pixels[p := pixels[p] + [i]]; }
      }
    }

    /** One background drawn over the line. */
    method PaintBG(s: Scene, bg: int)
      requires top.Length == COLUMNS
      modifies top
      ensures forall x :: 0 <= x < COLUMNS ==> top[x] == if s.paints(bg, x) then bg else old(top[x])
    {
      for i := 0 to COLUMNS
        invariant forall x :: 0 <= x < COLUMNS ==> top[x] == if x < i && s.paints(bg, x) then bg else old(top[x])
      {
        if s.paints(bg, i) { top[i] := bg; }
      }
    }

    /** The sprite dots of one priority. */
    method PaintSprites(s: Scene, list: seq<int>)
      requires top.Length == COLUMNS && forall x :: x in list ==> 0 <= x < COLUMNS
      modifies top
      ensures forall x :: 0 <= x < COLUMNS ==> top[x] == if x in list && s.paints(OBJ, x) then OBJ else old(top[x])
    {
      for i := 0 to |list|
        invariant forall x :: 0 <= x < COLUMNS ==>
            top[x] == if x in list[..i] && s.paints(OBJ, x) then OBJ else old(top[x])
      {
        assert list[i] in list;
        if s.paints(OBJ, list[i]) { top[list[i]] := OBJ; }
        assert list[..i + 1] == list[..i] + [list[i]];
      }
      assert list[..|list|] == list;
    }

    /** The backgrounds of one priority. */
    method PaintBGs(s: Scene, list: seq<int>)
      requires top.Length == COLUMNS
      modifies top
      ensures forall x :: 0 <= x < COLUMNS ==> top[x] == PaintList(s, x, list, old(top[x]))
    {
      for i := 0 to |list|
        invariant forall x :: 0 <= x < COLUMNS ==> top[x] == PaintList(s, x, list[..i], old(top[x]))
      {
        PaintBG(s, list[i]);
        assert list[..i + 1][..i] == list[..i] && list[..i + 1][i] == list[i];
      }
      assert list[..|list|] == list;
    }

    /** GPU_RenderLine_layer: every column ends with the layer in front. */
    method RenderLine(s: Scene)
      requires Valid() && Sound(s) && s.on == on && s.prio == prio
      modifies top, `pixels
      ensures Valid() && forall x :: 0 <= x < COLUMNS ==> InFront(s, x, top[x])
    {
      hide InFront, PaintList, ListOf, PixelsOf;
      for i := 0 to COLUMNS
        invariant forall x :: 0 <= x < i ==> top[x] == BACKDROP
      {
        top[i] := BACKDROP;
      }
      pixels := [[], [], [], []];
      if on[OBJ] { SortPixels(s.sprPrio); }
      var p := 4;
      while p > 0
        invariant 0 <= p <= 4 && Valid() && |pixels| == 4
        invariant on[OBJ] ==> forall q :: 0 <= q < 4 ==> pixels[q] == PixelsOf(s.sprPrio, q, COLUMNS)
        invariant forall x :: 0 <= x < COLUMNS ==> top[x] == TopAfter(s, x, p)
      {
        p := p - 1;
        PaintBGs(s, lists[p]);
        if on[OBJ] { PaintSprites(s, pixels[p]); }
      }
      forall x | 0 <= x < COLUMNS ensures InFront(s, x, top[x]) { LineShowsFront(s, x); }
    }
  }

  // ------------------------------------------ with the sprites of the line

  /** A column that shows a sprite shows the first one by priority and place in the
      table, and no background with a dot there has a lower priority number. */
  lemma SpriteOnTop(s: Scene, x: int, m: Sprites.Memory, oam: Sprites.Oam, l: int)
    requires Sound(s) && 0 <= x < COLUMNS && s.sprPrio[x] == Sprites.Column(m, oam, l, x, Sprites.SPRITES).prio
    requires TopAfter(s, x, 0) == OBJ
    ensures exists i: nat :: Sprites.Front(m, oam, l, x, Sprites.SPRITES, i) &&
              forall bg :: 0 <= bg < 4 && Painter(s, x, bg) ==> oam[i].priority <= s.prio[bg]
  {
    LineShowsFront(s, x);
    Sprites.ColumnShowsFront(m, oam, l, x, Sprites.SPRITES);
    hide TopAfter, Sprites.Front, Sprites.Column, Sprites.OfferAt;
  }
}
