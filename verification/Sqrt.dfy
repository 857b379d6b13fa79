/**
 The square-root unit in its 64-bit mode (source/MMU.cpp isqrt and execsqrt): a
 bit-by-bit integer root behind a memo table that marks absent entries by 0.
 */
module Sqrt {

  const WORD64 := 0x1_0000_0000_0000_0000

  /** `r` is the integer square root of `x`. */
  predicate IsRoot(x: nat, r: nat) { r * r <= x < (r + 1) * (r + 1) }

  lemma RootIsUnique(x: nat, a: nat, b: nat)
    requires IsRoot(x, a) && IsRoot(x, b)
    ensures a == b
  {
    Squares(a + 1, b);
    Squares(b + 1, a);
  }

  lemma Squares(a: nat, b: nat)
    ensures a <= b ==> a * a <= b * b
  {
    if a <= b { assert a * a <= a * b <= b * b; }
  }

  /** 4 to the power `k`. */
  function Quad(k: nat): (p: nat)
    ensures p >= 1
  {
    if k == 0 then 1 else 4 * Quad(k - 1)
  }

  /** The bitwise or of two unsigned words. */
  function Or(a: nat, b: nat): nat {
    if a == 0 then b else if b == 0 then a
    else 2 * Or(a / 2, b / 2) + if a % 2 == 1 || b % 2 == 1 then 1 else 0
  }

  /** A bit joined to a multiple of twice its weight adds up. */
  lemma {:induction false} OrAdds(k: nat, n: nat)
    ensures Or(2 * n * Quad(k), Quad(k)) == 2 * n * Quad(k) + Quad(k)
    ensures Or(Quad(k), 2 * n * Quad(k)) == 2 * n * Quad(k) + Quad(k)
    decreases k
  {
    if k == 0 {
      OrOne(n);
    } else {
      var q, p := Quad(k - 1), 2 * n * Quad(k - 1);
      OrAdds(k - 1, n);
      Doubled(p, q);
      Doubled(2 * p, 2 * q);
      Fourfold(2 * n, q);
      assert Quad(k) == 2 * (2 * q) && 2 * n * Quad(k) == 2 * (2 * p);
    }
  }

  lemma OrOne(n: nat)
    ensures Or(2 * n, 1) == 2 * n + 1 == Or(1, 2 * n)
  {
  }

  lemma Doubled(a: nat, b: nat)
    ensures Or(2 * a, 2 * b) == 2 * Or(a, b) && Or(2 * b, 2 * a) == 2 * Or(b, a)
  {
  }

  lemma Fourfold(n: nat, q: nat)
    ensures n * (4 * q) == 2 * (2 * (n * q))
  {
  }

  /** The square of the part `m` of the root that stands above weight `q`. */
  function Square(m: nat, q: nat): nat { m * m * q }

  function Times(m: nat, q: nat): nat { m * q }

  /** The state of the loop with `k` bits still to find: `m` is the part of the
      root above them. */
  predicate Inv(x: nat, bit: nat, rest: nat, root: nat, k: nat, m: nat) {
    && root == Times(m, Quad(k))
    && Square(m, Quad(k)) + rest == x < Square(m + 1, Quad(k))
    && bit == if k == 0 then 0 else Quad(k - 1)
  }

  /** One bit of the root found. */
  lemma StepKeepsInv(x: nat, bit: nat, rest: nat, root: nat, k: nat, m: nat)
    requires Inv(x, bit, rest, root, k, m) && k > 0
    ensures var trial := Or(bit, root);
            if rest >= trial then Inv(x, bit / 4, rest - trial, Or(root / 2, bit), k - 1, 2 * m + 1)
            else Inv(x, bit / 4, rest, root / 2, k - 1, 2 * m)
  {
    var q := Quad(k - 1);
    assert Quad(k) == 4 * q && bit == q && (k > 1 ==> q == 4 * Quad(k - 2));
    hide Or, Quad, Square, Times;
    Trials(k - 1, m);
    Bit(x, rest, m, q);
  }

  /** What one bit `q` contributes to the root. */
  lemma Bit(x: nat, rest: nat, m: nat, q: nat)
    requires Square(m, 4 * q) + rest == x < Square(m + 1, 4 * q)
    ensures Times(m, 4 * q) == 2 * Times(2 * m, q)
    ensures var t := 2 * Times(2 * m, q) + q;
            && Square(2 * m + 1, q) + (rest - t) == x < Square(2 * m + 2, q)
            && Square(2 * m, q) + rest == x
            && (rest < t ==> x < Square(2 * m + 1, q))
  {
    Expand(m, q);
  }

  /** The word compared with the rest, and the root with the new bit. */
  lemma Trials(k: nat, m: nat)
    ensures Or(Quad(k), 2 * Times(2 * m, Quad(k))) == 2 * Times(2 * m, Quad(k)) + Quad(k)
    ensures Or(Times(2 * m, Quad(k)), Quad(k)) == Times(2 * m + 1, Quad(k))
  {
    hide Or, Quad;
    OrAdds(k, 2 * m);
    OrAdds(k, m);
    Regroup(m, Quad(k));
  }

  lemma Regroup(m: nat, q: nat)
    ensures 2 * (2 * m) * q == 2 * (2 * m * q) && (2 * m + 1) * q == 2 * m * q + q
  {
  }

  lemma Expand(m: nat, q: nat)
    ensures m * (4 * q) == 2 * (2 * m * q)
    ensures (2 * m + 1) * (2 * m + 1) * q == m * m * (4 * q) + 2 * (2 * m * q) + q
    ensures 2 * m * (2 * m) * q == m * m * (4 * q)
    ensures (2 * m + 2) * (2 * m + 2) * q == (m + 1) * (m + 1) * (4 * q)
  {
    var s := m * m;
    assert (2 * m + 1) * (2 * m + 1) == 4 * s + 4 * m + 1;
    assert (4 * s + 4 * m + 1) * q == 4 * s * q + 4 * m * q + q;
    assert (2 * m + 2) * (2 * m + 2) == 4 * ((m + 1) * (m + 1));
    assert 2 * m * (2 * m) == 4 * s;
    assert s * (4 * q) == 4 * s * q;
  }

  /** isqrt, for every 64-bit argument. */
  method Isqrt(x: nat) returns (root: nat)
    requires x < WORD64
    ensures IsRoot(x, root) && root < 0x1_0000_0000
  {
    if x < 1 { return 0; }
    var bit: nat, rest: nat := 0x4000_0000_0000_0000, x;
    root := 0;
    ghost var k: nat, m: nat := 32, 0;
    Constants();
    while bit > 0
      invariant Inv(x, bit, rest, root, k, m)
      decreases k
    {
      StepKeepsInv(x, bit, rest, root, k, m);
      if rest >= Or(bit, root) {
        rest := rest - Or(bit, root);
        root := root / 2;
        root := Or(root, bit);
        m := 2 * m + 1;
      } else {
        root := root / 2;
        m := 2 * m;
      }
      bit := bit / 4;
      k := k - 1;
    }
    Squares(0x1_0000_0000, root);
  }

  lemma Constants()
    ensures Quad(31) == 0x4000_0000_0000_0000 && Quad(32) == WORD64
  {
    assert Quad(8) == 0x1_0000;
    QuadAdds(8, 8);
    QuadAdds(16, 8);
    assert Quad(7) == 0x4000;
    QuadAdds(24, 7);
  }

  lemma {:induction false} QuadAdds(a: nat, b: nat)
    ensures Quad(a + b) == Quad(a) * Quad(b)
  {
    if b > 0 {
      QuadAdds(a, b - 1);
      assert Quad(a) * (4 * Quad(b - 1)) == 4 * (Quad(a) * Quad(b - 1));
    }
  }

  /** The memo table: an entry is 0 or the root of its key. */
  predicate MemoOk(memo: map<nat, nat>) {
    forall v :: v in memo ==> memo[v] == 0 || IsRoot(v, memo[v])
  }

  /** The square-root unit. */
  class SqrtUnit {
    var memo: map<nat, nat>
    var busy: bool
    var running: bool
    var cycles: nat
    var pending: nat
    var register: nat               // SQRT_RESULT

    constructor ()
      ensures MemoOk(memo) && !running
    {
      memo, busy, running, cycles, pending, register := map[], false, false, 0, 0, 0;
    }

    /** execsqrt in 64-bit mode: looking a key up also enters it, with 0. */
    method Start(v: nat, now: nat)
      requires MemoOk(memo) && v < WORD64
      modifies this
      ensures MemoOk(memo) && running && busy && cycles == now + 26 && register == 0
      ensures IsRoot(v, pending) && memo == old(memo)[v := pending]
    {
      busy := true;
      if v !in memo { memo := memo[v := 0]; }
      var ret := memo[v];
      if ret == 0 && v != 0 {
        ret := Isqrt(v);
        memo := memo[v := ret];
      }
      register := 0;
      cycles, pending, running := now + 26, ret, true;
    }

    /** The end of the computation, run by the sequencer. */
    method Finish()
      requires MemoOk(memo) && running
      modifies `busy, `running, `register
      ensures register == pending && !busy && !running
    {
      busy := false;
      register := pending;
      running := false;
    }
  }

  /** 0 is a sound mark for an absent entry: it is the root of 0 only. */
  lemma ZeroMarksAbsence(v: nat)
    ensures IsRoot(v, 0) <==> v == 0
  {
  }
}
