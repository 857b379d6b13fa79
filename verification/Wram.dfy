/**
 The 32 KB of work RAM that ARM9 and ARM7 share (source/MMU.cpp, MMU_LCDmap for
 addresses 0x03000000 to 0x03FFFFFF): WRAMCNT gives each 16 KB half to one CPU.
 */
module Wram {
  import opened Arith

  const BLOCK := 0x4000
  const SHARED := 0x8000         // bytes of shared work RAM
  const PRIVATE := 0x1_0000      // bytes of ARM7's own work RAM

  /** Where an access goes: a byte of shared RAM, of ARM7's own RAM, or nowhere. */
  datatype Place = InShared(ofs: int) | InPrivate(ofs: int) | Nowhere

  /** The 16 KB block behind an address: 0-3 are ARM7's own, 4 and 5 shared, 8 none. */
  const ARM9_BLOCKS: seq<seq<int>> := [[4, 5, 4, 5], [5, 5, 5, 5], [4, 4, 4, 4], [8, 8, 8, 8]]
  const ARM7_BLOCKS: seq<seq<int>> := [[0, 1, 2, 3], [4, 4, 4, 4], [5, 5, 5, 5], [4, 5, 4, 5]]

  function PlaceOf(block: int, addr: nat): Place
    requires block in {0, 1, 2, 3, 4, 5, 8}
  {
    var ofs := addr % BLOCK;
    match block / 4
    case 0 => InPrivate(block * BLOCK + ofs)
    case 1 => InShared((block - 4) * BLOCK + ofs)
    case _ => Nowhere
  }

  function Place9(wramcnt: nat, addr: nat): Place
    requires wramcnt < 4
  {
    var blocks := ARM9_BLOCKS[wramcnt];
    PlaceOf(blocks[addr / BLOCK % 4], addr)
  }

  /** The upper half of ARM7's window always leads to its own RAM. */
  function Place7(wramcnt: nat, addr: nat): Place
    requires wramcnt < 4
  {
    var blocks := if addr / 0x80_0000 % 2 == 0 then ARM7_BLOCKS[wramcnt] else ARM7_BLOCKS[0];
    PlaceOf(blocks[addr / BLOCK % 4], addr)
  }

  predicate InWindow(addr: nat) { 0x0300_0000 <= addr < 0x0400_0000 }

  /** WRAMCNT gives ARM9 all 32 KB, their second half, their first half or nothing, and
      ARM7 the rest, each repeated through the window; without a share, and from 0x03800000
      on, ARM7 sees its own 64 KB. */
  lemma WindowsAre(wramcnt: nat, addr: nat)
    requires wramcnt < 4 && InWindow(addr)
    ensures Place9(wramcnt, addr) ==
              match wramcnt
              case 0 => InShared(addr % 0x8000)
              case 1 => InShared(0x4000 + addr % 0x4000)
              case 2 => InShared(addr % 0x4000)
              case _ => Nowhere
    ensures Place7(wramcnt, addr) ==
              if addr >= 0x0380_0000 then InPrivate(addr % 0x1_0000)
              else
                match wramcnt
                case 0 => InPrivate(addr % 0x1_0000)
                case 1 => InShared(addr % 0x4000)
                case 2 => InShared(0x4000 + addr % 0x4000)
                case _ => InShared(addr % 0x8000)
  {
    Blocks(addr);
    assert addr >= 0x0380_0000 <==> addr / 0x80_0000 % 2 == 1;
  }

  lemma Blocks(addr: nat)
    ensures addr % 0x8000 == addr / 0x4000 % 2 * 0x4000 + addr % 0x4000
    ensures addr % 0x1_0000 == addr / 0x4000 % 4 * 0x4000 + addr % 0x4000
    ensures addr / 0x4000 % 4 % 2 == addr / 0x4000 % 2 && 0 <= addr / 0x4000 % 4 < 4
  {
    TwoBlocks(addr / 0x4000, addr % 0x4000);
    FourBlocks(addr / 0x4000, addr % 0x4000);
  }

  lemma TwoBlocks(q: nat, w: nat)
    requires w < 0x4000
    ensures (q * 0x4000 + w) % 0x8000 == q % 2 * 0x4000 + w && q % 4 % 2 == q % 2
  {
    QuotientIs(q * 0x4000 + w, 0x8000, q / 2);
    NestedRemainder(q, 4, 2, 2);
  }

  lemma FourBlocks(q: nat, w: nat)
    requires w < 0x4000
    ensures (q * 0x4000 + w) % 0x1_0000 == q % 4 * 0x4000 + w
  {
    QuotientIs(q * 0x4000 + w, 0x1_0000, q / 4);
  }

  /** No byte of shared RAM is in reach of both CPUs. */
  lemma SharedIsDisjoint(wramcnt: nat, a9: nat, a7: nat)
    requires wramcnt < 4 && InWindow(a9) && InWindow(a7)
    ensures Place9(wramcnt, a9) == Place7(wramcnt, a7) ==> Place9(wramcnt, a9).Nowhere?
  {
  }

  /** And every byte of it is in reach of one of them. */
  lemma SharedIsCovered(wramcnt: nat, ofs: nat)
    requires wramcnt < 4 && ofs < SHARED
    ensures exists addr: nat ::
              InWindow(addr) && (Place9(wramcnt, addr) == InShared(ofs) || Place7(wramcnt, addr) == InShared(ofs))
  {
    var addr := 0x0300_0000 + ofs;
    assert addr / BLOCK % 4 == ofs / BLOCK && addr % BLOCK == ofs % BLOCK;
    assert addr / 0x80_0000 % 2 == 0;
    assert InShared(ofs) == PlaceOf(4 + ofs / BLOCK, addr);
    assert InWindow(addr) && (Place9(wramcnt, addr) == InShared(ofs) || Place7(wramcnt, addr) == InShared(ofs));
  }

  // ------------------------------------------------------------ isolation

  /** The two memories, byte by byte. */
  datatype Memory = Memory(shared: seq<int>, own: seq<int>)
  {
    predicate Shaped() { |shared| == SHARED && |own| == PRIVATE }

    function Get(p: Place): int
      requires Shaped()
    {
      match p
      case InShared(o) => if 0 <= o < SHARED then shared[o] else 0
      case InPrivate(o) => if 0 <= o < PRIVATE then own[o] else 0
      case Nowhere => 0
    }

    function Put(p: Place, v: int): (m: Memory)
      requires Shaped()
      ensures m.Shaped()
    {
      match p
      case InShared(o) => if 0 <= o < SHARED then this.(shared := shared[o := v]) else this
      case InPrivate(o) => if 0 <= o < PRIVATE then this.(own := own[o := v]) else this
      case Nowhere => this
    }
  }

  datatype Write = Write(addr: nat, val: int)

  function PlaceFor(arm9: bool, wramcnt: nat, addr: nat): Place
    requires wramcnt < 4
  {
    if arm9 then Place9(wramcnt, addr) else Place7(wramcnt, addr)
  }

  /** A run of writes through one CPU's window. */
  function WriteAll(m: Memory, arm9: bool, wramcnt: nat, ws: seq<Write>): (r: Memory)
    requires m.Shaped() && wramcnt < 4
    ensures r.Shaped()
    decreases |ws|
  {
    if ws == [] then m
    else WriteAll(m.Put(PlaceFor(arm9, wramcnt, ws[0].addr), ws[0].val), arm9, wramcnt, ws[1..])
  }

  /** Nothing one CPU writes through its window changes what the other reads. */
  lemma {:induction false} CpusAreIsolated(m: Memory, arm9: bool, wramcnt: nat, ws: seq<Write>, addr: nat)
    requires m.Shaped() && wramcnt < 4 && InWindow(addr)
    requires forall k :: 0 <= k < |ws| ==> InWindow(ws[k].addr)
    ensures WriteAll(m, arm9, wramcnt, ws).Get(PlaceFor(!arm9, wramcnt, addr)) == m.Get(PlaceFor(!arm9, wramcnt, addr))
    decreases |ws|
  {
    if ws != [] {
      var w := ws[0];
      if arm9 { SharedIsDisjoint(wramcnt, w.addr, addr); } else { SharedIsDisjoint(wramcnt, addr, w.addr); }
      CpusAreIsolated(m.Put(PlaceFor(arm9, wramcnt, w.addr), w.val), arm9, wramcnt, ws[1..], addr);
    }
  }

  /** While a CPU reads back its own last write wherever its window leads. */
  lemma OwnWriteReadsBack(m: Memory, arm9: bool, wramcnt: nat, w: Write, addr: nat)
    requires m.Shaped() && wramcnt < 4 && InWindow(addr) && InWindow(w.addr)
    requires PlaceFor(arm9, wramcnt, addr) == PlaceFor(arm9, wramcnt, w.addr)
    ensures WriteAll(m, arm9, wramcnt, [w]).Get(PlaceFor(arm9, wramcnt, addr))
         == if PlaceFor(arm9, wramcnt, addr).Nowhere? then 0 else w.val
  {
    assert WriteAll(m, arm9, wramcnt, [w]) == m.Put(PlaceFor(arm9, wramcnt, w.addr), w.val);
  }
}
