/** Blocks that tile a memory region back to back: the layout both heap
    allocators of the kernel keep in memory. */
module Tiling {
  datatype Block = Block(start: nat, end: nat, used: bool)

  ghost predicate Tiles(bs: seq<Block>, lo: nat, hi: nat) {
    && |bs| > 0 && bs[0].start == lo && bs[|bs| - 1].end == hi
    && (forall i :: 0 <= i < |bs| ==> bs[i].start < bs[i].end)
    && (forall i, j :: 0 <= i < j < |bs| && j == i + 1 ==> bs[i].end == bs[j].start)
  }

  /** The positions at which a block and its right neighbour are both free. */
  ghost function FreePairs(bs: seq<Block>): set<int> {
    set i: int, j: int | 0 <= i < |bs| && i < j < |bs| && j == i + 1 && !bs[i].used && !bs[j].used :: i
  }

  lemma FreePairAt(bs: seq<Block>, i: int)
    ensures i in FreePairs(bs) <==> 0 <= i < |bs| - 1 && !bs[i].used && !bs[i + 1].used
  {
  }

  ghost predicate Coalesced(bs: seq<Block>, lo: nat, hi: nat) {
    Tiles(bs, lo, hi) && FreePairs(bs) == {}
  }

  ghost function Live(bs: seq<Block>): set<Block> {
    set b | b in bs && b.used
  }

  lemma {:induction false} Ordered(bs: seq<Block>, lo: nat, hi: nat, i: nat, j: nat)
    requires Tiles(bs, lo, hi) && i < j < |bs|
    ensures bs[i].end <= bs[j].start
    decreases j
  {
    if i + 1 < j {
      Ordered(bs, lo, hi, i, j - 1);
      assert bs[j - 1].end == bs[j].start;
    }
  }

  lemma AllOrdered(bs: seq<Block>, lo: nat, hi: nat)
    requires Tiles(bs, lo, hi)
    ensures forall i, j :: 0 <= i < j < |bs| ==> bs[i].end <= bs[j].start
    ensures forall i :: 0 <= i < |bs| ==> lo <= bs[i].start < bs[i].end <= hi
  {
    forall i, j | 0 <= i < j < |bs| ensures bs[i].end <= bs[j].start {
      Ordered(bs, lo, hi, i, j);
    }
  }

  lemma TailTiles(bs: seq<Block>, lo: nat, hi: nat)
    requires Coalesced(bs, lo, hi) && |bs| > 1
    ensures Coalesced(bs[1..], bs[0].end, hi)
    ensures Live(bs[1..]) == Live(bs) - {bs[0]}
  {
    AllOrdered(bs, lo, hi);
    assert bs == [bs[0]] + bs[1..];
    assert bs[0] !in bs[1..];
    forall i: int ensures i !in FreePairs(bs[1..]) {
      FreePairAt(bs, i + 1);
    }
  }

  /** A coalesced tiling is determined by its used blocks: free space has one
      canonical form. */
  lemma {:induction false} CoalescedIsCanonical(bs: seq<Block>, cs: seq<Block>, lo: nat, hi: nat)
    requires Coalesced(bs, lo, hi) && Coalesced(cs, lo, hi)
    requires Live(bs) == Live(cs)
    ensures bs == cs
    decreases |bs|
  {
    SameHead(bs, cs, lo, hi);
    SameHead(cs, bs, lo, hi);
    assert bs[0] == cs[0];
    OnlyBlock(bs, lo, hi);
    OnlyBlock(cs, lo, hi);
    assert bs == [bs[0]] + bs[1..] && cs == [cs[0]] + cs[1..];
    if |bs| > 1 {
      TailTiles(bs, lo, hi);
      TailTiles(cs, lo, hi);
      CoalescedIsCanonical(bs[1..], cs[1..], bs[0].end, hi);
    }
  }

  lemma OnlyBlock(bs: seq<Block>, lo: nat, hi: nat)
    requires Tiles(bs, lo, hi)
    ensures |bs| == 1 <==> bs[0].end == hi
  {
    AllOrdered(bs, lo, hi);
    if |bs| > 1 {
      assert bs[0].end <= bs[1].start < bs[1].end <= hi;
    }
  }

  lemma SameHead(bs: seq<Block>, cs: seq<Block>, lo: nat, hi: nat)
    requires Coalesced(bs, lo, hi) && Coalesced(cs, lo, hi)
    requires Live(bs) == Live(cs)
    ensures bs[0].used ==> cs[0] == bs[0]
    ensures !bs[0].used && !cs[0].used ==> cs[0].end <= bs[0].end
  {
    AllOrdered(bs, lo, hi);
    AllOrdered(cs, lo, hi);
    if bs[0].used {
      assert bs[0] in Live(cs);
    } else if |bs| > 1 {
      FreePairAt(bs, 0);
      assert bs[1].used;
      assert bs[1] in Live(cs);
    }
  }

  // Edits of a layout. Each keeps the tiling; what it does to the used blocks
  // and to the byte counters is stated beside it.

  function Split(bs: seq<Block>, i: nat, mid: nat, leftUsed: bool, rightUsed: bool): seq<Block>
    requires i < |bs|
  {
    bs[..i] + [Block(bs[i].start, mid, leftUsed), Block(mid, bs[i].end, rightUsed)] + bs[i + 1..]
  }

  function Join(bs: seq<Block>, i: nat): seq<Block>
    requires i + 1 < |bs|
  {
    bs[..i] + [Block(bs[i].start, bs[i + 1].end, false)] + bs[i + 2..]
  }

  function Mark(bs: seq<Block>, i: nat, used: bool): seq<Block>
    requires i < |bs|
  {
    bs[i := bs[i].(used := used)]
  }

  /** Moves the border between a used block and its free right neighbour. */
  function Shift(bs: seq<Block>, i: nat, mid: nat): seq<Block>
    requires i + 1 < |bs|
  {
    bs[..i] + [Block(bs[i].start, mid, true), Block(mid, bs[i + 1].end, false)] + bs[i + 2..]
  }

  /** Merging block i with a free right neighbour leaves no free pair at i. */
  lemma MergeRight(bs: seq<Block>, i: nat)
    requires FreePairs(bs) <= {i - 1, i} && i < |bs| && !bs[i].used
    ensures i + 1 < |bs| && !bs[i + 1].used ==> FreePairs(Join(bs, i)) <= {i - 1}
    ensures i + 1 == |bs| || bs[i + 1].used ==> FreePairs(bs) <= {i - 1}
  {
    if i + 1 < |bs| && !bs[i + 1].used {
      FreePairAt(bs, i + 1);
      forall j | j in FreePairs(Join(bs, i)) ensures j == i - 1 {
        FreePairAt(bs, if j < i then j else j + 1);
      }
    }
  }

  /** Merging block i into a free left neighbour then leaves no free pair at all. */
  lemma MergeLeft(bs: seq<Block>, i: nat)
    requires FreePairs(bs) <= {i - 1} && i < |bs| && !bs[i].used
    ensures i > 0 && !bs[i - 1].used ==> FreePairs(Join(bs, i - 1)) == {}
    ensures i == 0 || bs[i - 1].used ==> FreePairs(bs) == {}
  {
    if i > 0 && !bs[i - 1].used {
      if i + 1 < |bs| {
        FreePairAt(bs, i);
      }
      var cs := Join(bs, i - 1);
      forall j: int ensures j !in FreePairs(cs) {
        FreePairAt(bs, if j < i - 1 then j else j + 1);
      }
    }
  }

  /** The same two merges in the other order. */
  lemma MergeLeftFirst(bs: seq<Block>, i: nat)
    requires FreePairs(bs) <= {i - 1, i} && i < |bs| && !bs[i].used
    ensures i > 0 && !bs[i - 1].used ==> FreePairs(Join(bs, i - 1)) <= {i - 1}
    ensures i == 0 || bs[i - 1].used ==> FreePairs(bs) <= {i}
  {
    if i > 0 && !bs[i - 1].used {
      var cs := Join(bs, i - 1);
      forall j: int ensures j in FreePairs(cs) ==> j == i - 1 {
        FreePairAt(bs, if j < i - 1 then j else j + 1);
      }
    }
  }

  lemma MergeRightLast(bs: seq<Block>, i: nat)
    requires FreePairs(bs) <= {i} && i < |bs| && !bs[i].used
    ensures i + 1 < |bs| && !bs[i + 1].used ==> FreePairs(Join(bs, i)) == {}
    ensures i + 1 == |bs| || bs[i + 1].used ==> FreePairs(bs) == {}
  {
    if i + 1 < |bs| && !bs[i + 1].used {
      var cs := Join(bs, i);
      FreePairAt(bs, i + 1);
      forall j: int ensures j !in FreePairs(cs) {
        FreePairAt(bs, if j < i then j else j + 1);
      }
    }
  }

  lemma MarkFreePairs(bs: seq<Block>, i: nat)
    requires FreePairs(bs) == {} && i < |bs|
    ensures FreePairs(Mark(bs, i, false)) <= {i - 1, i}
    ensures FreePairs(Mark(bs, i, true)) == {}
  {
    forall j, u | j in FreePairs(Mark(bs, i, u)) ensures !u && j in {i - 1, i} {
      FreePairAt(bs, j);
    }
  }

  lemma SplitFreePairs(bs: seq<Block>, i: nat, mid: nat)
    requires FreePairs(bs) == {} && i < |bs|
    ensures FreePairs(Split(bs, i, mid, true, false)) <= {i + 1}
    ensures !bs[i].used ==> FreePairs(Split(bs, i, mid, true, false)) == {}
  {
    forall j | j in FreePairs(Split(bs, i, mid, true, false)) ensures j == i + 1 && bs[i].used {
      FreePairAt(bs, if j < i then j else j - 1);
    }
  }

  lemma LiveConcat(xs: seq<Block>, ys: seq<Block>)
    ensures Live(xs + ys) == Live(xs) + Live(ys)
  {
  }

  lemma LiveOne(b: Block)
    ensures Live([b]) == if b.used then {b} else {}
  {
  }

  /** The used blocks of a layout that has ms in place of blocks i to j. */
  lemma LiveParts(bs: seq<Block>, i: nat, j: nat, ms: seq<Block>)
    requires i <= j <= |bs|
    ensures Live(bs[..i] + ms + bs[j..]) == Live(bs[..i]) + Live(bs[j..]) + Live(ms)
  {
    LiveConcat(bs[..i], ms);
    LiveConcat(bs[..i] + ms, bs[j..]);
    SwapLast(Live(bs[..i]), Live(ms), Live(bs[j..]));
  }

  lemma LivePair(l: Block, r: Block)
    requires !r.used
    ensures Live([l, r]) == if l.used then {l} else {}
  {
  }

  lemma SwapLast(a: set<Block>, b: set<Block>, c: set<Block>)
    ensures a + b + c == a + c + b
  {
  }

  lemma OnlyThere(bs: seq<Block>, i: nat, lo: nat, hi: nat)
    requires Tiles(bs, lo, hi) && i < |bs|
    ensures bs[i] !in bs[..i] && bs[i] !in bs[i + 1..]
  {
    AllOrdered(bs, lo, hi);
  }

  /** No block occurs twice. */
  lemma LiveOthers(bs: seq<Block>, i: nat, lo: nat, hi: nat)
    requires Tiles(bs, lo, hi) && i < |bs|
    ensures Live(bs) - {bs[i]} == Live(bs[..i]) + Live(bs[i + 1..])
  {
    OnlyThere(bs, i, lo, hi);
    assert bs == bs[..i] + [bs[i]] + bs[i + 1..];
    LiveParts(bs, i, i + 1, [bs[i]]);
    LiveOne(bs[i]);
  }

  lemma SplitLive(bs: seq<Block>, i: nat, mid: nat, leftUsed: bool, lo: nat, hi: nat)
    requires Tiles(bs, lo, hi) && i < |bs| && bs[i].start < mid < bs[i].end
    ensures Live(Split(bs, i, mid, leftUsed, false)) ==
            Live(bs) - {bs[i]} + (if leftUsed then {Block(bs[i].start, mid, true)} else {})
  {
    var l, r := Block(bs[i].start, mid, leftUsed), Block(mid, bs[i].end, false);
    LiveOthers(bs, i, lo, hi);
    LiveParts(bs, i, i + 1, [l, r]);
    LivePair(l, r);
  }

  lemma JoinLive(bs: seq<Block>, i: nat)
    requires i + 1 < |bs| && !bs[i].used && !bs[i + 1].used
    ensures Live(Join(bs, i)) == Live(bs)
  {
    assert bs == bs[..i] + [bs[i], bs[i + 1]] + bs[i + 2..];
    LiveParts(bs, i, i + 2, [bs[i], bs[i + 1]]);
    LiveParts(bs, i, i + 2, [Block(bs[i].start, bs[i + 1].end, false)]);
  }

  lemma MarkParts(bs: seq<Block>, i: nat, used: bool)
    requires i < |bs|
    ensures Mark(bs, i, used) == bs[..i] + [bs[i].(used := used)] + bs[i + 1..] && bs[i..i + 1] == [bs[i]]
  {
  }

  lemma MarkLive(bs: seq<Block>, i: nat, used: bool, lo: nat, hi: nat)
    requires Tiles(bs, lo, hi) && i < |bs|
    ensures Live(Mark(bs, i, used)) ==
            Live(bs) - {bs[i]} + (if used then {bs[i].(used := true)} else {})
  {
    LiveOthers(bs, i, lo, hi);
    MarkParts(bs, i, used);
    LiveParts(bs, i, i + 1, [bs[i].(used := used)]);
    LiveOne(bs[i].(used := used));
  }

  // The payloads of the used blocks

  /** Where the payloads of some blocks begin, behind headers of the given size. */
  ghost function Offsets(bs: set<Block>, header: nat): set<int> {
    set b | b in bs :: b.start + header
  }

  ghost function Payloads(bs: seq<Block>, header: nat): set<int> {
    Offsets(Live(bs), header)
  }

  lemma OffsetsPlus(bs: set<Block>, cs: set<Block>, header: nat)
    ensures Offsets(bs + cs, header) == Offsets(bs, header) + Offsets(cs, header)
  {
  }

  lemma OffsetsMinus(bs: set<Block>, gone: set<Block>, header: nat)
    requires gone <= bs && forall b, c :: b in bs && c in gone && b.start == c.start ==> b == c
    ensures Offsets(bs - gone, header) == Offsets(bs, header) - Offsets(gone, header)
  {
    forall p | p in Offsets(bs, header) - Offsets(gone, header) ensures p in Offsets(bs - gone, header) {
      var b :| b in bs && b.start + header == p;
      assert b !in gone;
    }
  }

  /** Some used blocks gone, and some new. */
  lemma PayloadsSwapped(bs: seq<Block>, cs: seq<Block>, gone: set<Block>, come: set<Block>, header: nat, lo: nat,
                        hi: nat)
    requires Tiles(bs, lo, hi) && gone <= Live(bs) && Live(cs) == Live(bs) - gone + come
    ensures Payloads(cs, header) == Payloads(bs, header) - Offsets(gone, header) + Offsets(come, header)
  {
    AllOrdered(bs, lo, hi);
    forall b, c | b in Live(bs) && c in gone && b.start == c.start ensures b == c {
      var i :| 0 <= i < |bs| && bs[i] == b;
      var j :| 0 <= j < |bs| && bs[j] == c;
    }
    OffsetsMinus(Live(bs), gone, header);
    OffsetsPlus(Live(bs) - gone, come, header);
  }

  // Byte counters: the extent of all used (or all free) blocks, less a fixed
  // overhead per block.

  ghost function Weight(b: Block, used: bool, overhead: nat): int {
    if b.used == used then b.end - b.start - overhead else 0
  }

  ghost function Sum(bs: seq<Block>, used: bool, overhead: nat): int {
    if bs == [] then 0 else Weight(bs[0], used, overhead) + Sum(bs[1..], used, overhead)
  }

  lemma {:induction false} SumConcat(xs: seq<Block>, bs: seq<Block>, used: bool, overhead: nat)
    ensures Sum(xs + bs, used, overhead) == Sum(xs, used, overhead) + Sum(bs, used, overhead)
  {
    if xs == [] {
      assert xs + bs == bs;
    } else {
      assert (xs + bs)[1..] == xs[1..] + bs;
      SumConcat(xs[1..], bs, used, overhead);
    }
  }

  /** Replacing bs[i..j] by mid changes a counter by the difference of the two parts. */
  lemma SumReplace(bs: seq<Block>, i: nat, j: nat, mid: seq<Block>, used: bool, overhead: nat)
    requires i <= j <= |bs|
    ensures Sum(bs[..i] + mid + bs[j..], used, overhead) ==
            Sum(bs, used, overhead) - Sum(bs[i..j], used, overhead) + Sum(mid, used, overhead)
  {
    SumConcat(bs[..i] + mid, bs[j..], used, overhead);
    SumConcat(bs[..i], mid, used, overhead);
    SumConcat(bs[..i] + bs[i..j], bs[j..], used, overhead);
    SumConcat(bs[..i], bs[i..j], used, overhead);
    assert bs == bs[..i] + bs[i..j] + bs[j..];
  }

  lemma SumPair(a: Block, b: Block, used: bool, overhead: nat)
    ensures Sum([a], used, overhead) == Weight(a, used, overhead)
    ensures Sum([a, b], used, overhead) == Weight(a, used, overhead) + Weight(b, used, overhead)
  {
    assert [a, b][1..] == [b];
    assert Sum([b], used, overhead) == Weight(b, used, overhead);
  }

  lemma SplitSum(bs: seq<Block>, i: nat, mid: nat, leftUsed: bool, rightUsed: bool, used: bool, overhead: nat)
    requires i < |bs|
    ensures Sum(Split(bs, i, mid, leftUsed, rightUsed), used, overhead) ==
            Sum(bs, used, overhead) - Weight(bs[i], used, overhead)
            + Weight(Block(bs[i].start, mid, leftUsed), used, overhead)
            + Weight(Block(mid, bs[i].end, rightUsed), used, overhead)
  {
    var l, r := Block(bs[i].start, mid, leftUsed), Block(mid, bs[i].end, rightUsed);
    assert bs[i..i + 1] == [bs[i]];
    SumPair(bs[i], bs[i], used, overhead);
    SumPair(l, r, used, overhead);
    SumReplace(bs, i, i + 1, [l, r], used, overhead);
  }

  lemma JoinSum(bs: seq<Block>, i: nat, used: bool, overhead: nat)
    requires i + 1 < |bs|
    ensures Sum(Join(bs, i), used, overhead) ==
            Sum(bs, used, overhead) - Weight(bs[i], used, overhead) - Weight(bs[i + 1], used, overhead)
            + Weight(Block(bs[i].start, bs[i + 1].end, false), used, overhead)
  {
    var m := Block(bs[i].start, bs[i + 1].end, false);
    assert bs[i..i + 2] == [bs[i], bs[i + 1]];
    SumPair(bs[i], bs[i + 1], used, overhead);
    SumPair(m, m, used, overhead);
    SumReplace(bs, i, i + 2, [m], used, overhead);
  }

  lemma MarkSum(bs: seq<Block>, i: nat, u: bool, used: bool, overhead: nat)
    requires i < |bs|
    ensures Sum(Mark(bs, i, u), used, overhead) ==
            Sum(bs, used, overhead) - Weight(bs[i], used, overhead) + Weight(bs[i].(used := u), used, overhead)
  {
    var m := bs[i].(used := u);
    assert Mark(bs, i, u) == bs[..i] + [m] + bs[i + 1..];
    assert bs[i..i + 1] == [bs[i]];
    SumPair(bs[i], bs[i], used, overhead);
    SumPair(m, m, used, overhead);
    SumReplace(bs, i, i + 1, [m], used, overhead);
  }

  /** With nothing in use, a coalesced region is one free block. */
  lemma NothingLive(bs: seq<Block>, lo: nat, hi: nat)
    requires Coalesced(bs, lo, hi) && Live(bs) == {}
    ensures bs == [Block(lo, hi, false)]
  {
    AllOrdered(bs, lo, hi);
    var one := [Block(lo, hi, false)];
    assert bs[0] in bs;
    CoalescedIsCanonical(bs, one, lo, hi);
  }

  /** Conservation: used and free extents add up to the region. */
  lemma {:induction false} ExtentsAddUp(bs: seq<Block>, lo: nat, hi: nat)
    requires Tiles(bs, lo, hi)
    ensures Sum(bs, true, 0) + Sum(bs, false, 0) == hi - lo
  {
    if |bs| > 1 {
      assert Tiles(bs[1..], bs[0].end, hi);
      ExtentsAddUp(bs[1..], bs[0].end, hi);
    } else {
      assert bs[1..] == [];
    }
  }

  ghost function FreeCount(bs: seq<Block>): nat {
    if bs == [] then 0 else (if bs[0].used then 0 else 1) + FreeCount(bs[1..])
  }

  /** Each free block costs its overhead. */
  lemma {:induction false} SumOverhead(bs: seq<Block>, overhead: nat)
    ensures Sum(bs, false, overhead) == Sum(bs, false, 0) - overhead * FreeCount(bs)
  {
    if bs != [] {
      SumOverhead(bs[1..], overhead);
      assert overhead * (1 + FreeCount(bs[1..])) == overhead + overhead * FreeCount(bs[1..]);
    }
  }

  lemma ShiftFacts(bs: seq<Block>, i: nat, mid: nat, lo: nat, hi: nat, overhead: nat)
    requires Tiles(bs, lo, hi) && FreePairs(bs) == {} && i + 1 < |bs| && bs[i].used && !bs[i + 1].used
    requires bs[i].start < mid < bs[i + 1].end
    ensures FreePairs(Shift(bs, i, mid)) == {}
    ensures Live(Shift(bs, i, mid)) == Live(bs) - {bs[i]} + {Block(bs[i].start, mid, true)}
    ensures Sum(Shift(bs, i, mid), false, overhead) == Sum(bs, false, overhead) - (mid - bs[i].end)
  {
    var cs := Shift(bs, i, mid);
    FreePairAt(bs, i + 1);
    forall j: int ensures j !in FreePairs(cs) {
      FreePairAt(bs, j);
    }
    var l, r := Block(bs[i].start, mid, true), Block(mid, bs[i + 1].end, false);
    assert bs[i..i + 2] == [bs[i], bs[i + 1]];
    SumPair(bs[i], bs[i + 1], false, overhead);
    SumPair(l, r, false, overhead);
    SumReplace(bs, i, i + 2, [l, r], false, overhead);
    ShiftLive(bs, i, mid, lo, hi);
  }

  lemma LiveTail(bs: seq<Block>, i: nat)
    requires i < |bs| && !bs[i].used
    ensures Live(bs[i..]) == Live(bs[i + 1..])
  {
    assert bs[i..] == [bs[i]] + bs[i + 1..];
  }

  lemma ShiftLive(bs: seq<Block>, i: nat, mid: nat, lo: nat, hi: nat)
    requires Tiles(bs, lo, hi) && i + 1 < |bs| && bs[i].used && !bs[i + 1].used
    ensures Live(Shift(bs, i, mid)) == Live(bs) - {bs[i]} + {Block(bs[i].start, mid, true)}
  {
    var l, r := Block(bs[i].start, mid, true), Block(mid, bs[i + 1].end, false);
    LiveOthers(bs, i, lo, hi);
    LiveTail(bs, i + 1);
    LiveParts(bs, i, i + 2, [l, r]);
    LivePair(l, r);
  }

  // The starts of the free blocks

  ghost function FreeStarts(bs: seq<Block>): set<int> {
    if bs == [] then {} else (if bs[0].used then {} else {bs[0].start}) + FreeStarts(bs[1..])
  }

  lemma {:induction false} FreeStartsConcat(xs: seq<Block>, ys: seq<Block>)
    ensures FreeStarts(xs + ys) == FreeStarts(xs) + FreeStarts(ys)
  {
    if xs == [] {
      assert xs + ys == ys;
    } else {
      assert (xs + ys)[1..] == xs[1..] + ys;
      FreeStartsConcat(xs[1..], ys);
    }
  }

  lemma {:induction false} FreeStartIndex(bs: seq<Block>, f: int) returns (k: nat)
    requires f in FreeStarts(bs)
    ensures k < |bs| && !bs[k].used && bs[k].start == f
  {
    if !bs[0].used && bs[0].start == f {
      k := 0;
    } else {
      k := FreeStartIndex(bs[1..], f);
      k := k + 1;
    }
  }

  lemma FreeStartAt(bs: seq<Block>, i: nat, lo: nat, hi: nat)
    requires Tiles(bs, lo, hi) && i < |bs|
    ensures bs[i].start in FreeStarts(bs) <==> !bs[i].used
  {
    AllOrdered(bs, lo, hi);
    assert bs == bs[..i] + ([bs[i]] + bs[i + 1..]);
    FreeStartsConcat(bs[..i], [bs[i]] + bs[i + 1..]);
    if bs[i].start in FreeStarts(bs) {
      var k := FreeStartIndex(bs, bs[i].start);
    }
  }

  lemma InteriorIsNoStart(bs: seq<Block>, i: nat, p: int, lo: nat, hi: nat)
    requires Tiles(bs, lo, hi) && i < |bs| && bs[i].start < p < bs[i].end
    ensures p !in FreeStarts(bs)
  {
    AllOrdered(bs, lo, hi);
    if p in FreeStarts(bs) {
      var k := FreeStartIndex(bs, p);
    }
  }

  /** Replacing bs[i..j] by mid replaces its free starts. */
  lemma FreeStartsReplace(bs: seq<Block>, i: nat, j: nat, mid: seq<Block>, lo: nat, hi: nat)
    requires Tiles(bs, lo, hi) && i <= j <= |bs|
    ensures FreeStarts(bs[..i] + mid + bs[j..]) == FreeStarts(bs) - FreeStarts(bs[i..j]) + FreeStarts(mid)
  {
    FreeStartsConcat(bs[..i] + mid, bs[j..]);
    FreeStartsConcat(bs[..i], mid);
    FreeStartsConcat(bs[..i] + bs[i..j], bs[j..]);
    FreeStartsConcat(bs[..i], bs[i..j]);
    assert bs == bs[..i] + bs[i..j] + bs[j..];
    forall f | f in FreeStarts(bs[i..j]) ensures f !in FreeStarts(bs[..i]) && f !in FreeStarts(bs[j..]) {
      FreeStartsApart(bs, i, j, lo, hi, f);
    }
  }

  lemma FreeStartsApart(bs: seq<Block>, i: nat, j: nat, lo: nat, hi: nat, f: int)
    requires Tiles(bs, lo, hi) && i <= j <= |bs| && f in FreeStarts(bs[i..j])
    ensures f !in FreeStarts(bs[..i]) && f !in FreeStarts(bs[j..])
  {
    AllOrdered(bs, lo, hi);
    var k := FreeStartIndex(bs[i..j], f);
    assert bs[i + k].start == f;
    if f in FreeStarts(bs[..i]) {
      var m := FreeStartIndex(bs[..i], f);
    }
    if f in FreeStarts(bs[j..]) {
      var m := FreeStartIndex(bs[j..], f);
    }
  }

  lemma FreeStartsPair(a: Block, b: Block)
    ensures FreeStarts([a]) == if a.used then {} else {a.start}
    ensures FreeStarts([a, b]) == FreeStarts([a]) + FreeStarts([b])
  {
    assert [a, b][1..] == [b];
    assert [a][1..] == [];
  }

  lemma MarkFreeStarts(bs: seq<Block>, i: nat, used: bool, lo: nat, hi: nat)
    requires Tiles(bs, lo, hi) && i < |bs|
    ensures FreeStarts(Mark(bs, i, used)) == FreeStarts(bs) - {bs[i].start} + (if used then {} else {bs[i].start})
  {
    var m := bs[i].(used := used);
    FreeStartsReplace(bs, i, i + 1, [m], lo, hi);
    FreeStartsPair(bs[i], m);
    FreeStartsPair(m, m);
    FreeStartAt(bs, i, lo, hi);
    MarkParts(bs, i, used);
  }

  lemma SplitFreeStarts(bs: seq<Block>, i: nat, mid: nat, leftUsed: bool, lo: nat, hi: nat)
    requires Tiles(bs, lo, hi) && i < |bs|
    ensures FreeStarts(Split(bs, i, mid, leftUsed, false)) ==
            FreeStarts(bs) - {bs[i].start} + (if leftUsed then {} else {bs[i].start}) + {mid}
  {
    var l, r := Block(bs[i].start, mid, leftUsed), Block(mid, bs[i].end, false);
    FreeStartsReplace(bs, i, i + 1, [l, r], lo, hi);
    FreeStartsPair(bs[i], r);
    FreeStartsPair(l, r);
    FreeStartsPair(r, r);
    FreeStartAt(bs, i, lo, hi);
    assert bs[i..i + 1] == [bs[i]];
  }

  lemma JoinFreeStarts(bs: seq<Block>, i: nat, lo: nat, hi: nat)
    requires Tiles(bs, lo, hi) && i + 1 < |bs| && !bs[i].used && !bs[i + 1].used
    ensures FreeStarts(Join(bs, i)) == FreeStarts(bs) - {bs[i + 1].start}
  {
    var m := Block(bs[i].start, bs[i + 1].end, false);
    FreeStartsReplace(bs, i, i + 2, [m], lo, hi);
    FreeStartsPair(bs[i], bs[i + 1]);
    FreeStartsPair(bs[i + 1], m);
    FreeStartsPair(m, m);
    FreeStartAt(bs, i, lo, hi);
    assert bs[i..i + 2] == [bs[i], bs[i + 1]];
  }

  lemma ShiftFreeStarts(bs: seq<Block>, i: nat, mid: nat, lo: nat, hi: nat)
    requires Tiles(bs, lo, hi) && i + 1 < |bs| && bs[i].used && !bs[i + 1].used
    ensures FreeStarts(Shift(bs, i, mid)) == FreeStarts(bs) - {bs[i + 1].start} + {mid}
  {
    var l, r := Block(bs[i].start, mid, true), Block(mid, bs[i + 1].end, false);
    FreeStartsReplace(bs, i, i + 2, [l, r], lo, hi);
    FreeStartsPair(bs[i], bs[i + 1]);
    FreeStartsPair(bs[i + 1], r);
    FreeStartsPair(l, r);
    FreeStartsPair(r, r);
    assert bs[i..i + 2] == [bs[i], bs[i + 1]];
  }
}
