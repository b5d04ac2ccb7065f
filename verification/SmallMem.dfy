/** The small-memory heap (mem.c): one byte region holding a doubly linked list
    of block headers, each followed by its payload. Addresses are byte offsets
    from the start of the heap. */
module SmallMem {
  import opened Arithmetic
  import opened MemRoutines
  import opened RtConfig
  import opened Tiling

  const HEADER_SIZE: nat := 12
  const MIN_SIZE: nat := 12
  const HEAP_MAGIC: nat := 0x1ea0

  datatype Header = Header(magic: nat, used: bool, next: nat, prev: nat)

  type Headers = map<nat, Header>

  /** What the allocator hands out: null or the offset of a payload. */
  datatype Pointer = Null | At(offset: int)

  /** The headers from p on spell out the layout bs up to the sentinel at hi,
      each block after a predecessor header at `prev`. The sentinel is always used
      and points at itself; nothing is said of its prev link, which goes stale. */
  ghost predicate Chain(hdr: Headers, bs: seq<Block>, prev: nat, p: nat, hi: nat) {
    p % ALIGN_SIZE == 0 &&
    if bs == [] then
      p == hi && hi in hdr && hdr[hi].magic == HEAP_MAGIC && hdr[hi].used && hdr[hi].next == hi
    else
      && p in hdr && hdr[p] == Header(HEAP_MAGIC, bs[0].used, bs[0].end, prev)
      && bs[0].start == p && p + HEADER_SIZE < bs[0].end
      && Chain(hdr, bs[1..], p, bs[0].end, hi)
  }

  lemma {:induction false} ChainTiles(hdr: Headers, bs: seq<Block>, prev: nat, p: nat, hi: nat)
    requires Chain(hdr, bs, prev, p, hi)
    ensures bs != [] ==> Tiles(bs, p, hi)
    ensures bs == [] ==> p == hi
    ensures hi in hdr && hdr[hi].used && hdr[hi].next == hi
    ensures forall b :: b in bs ==>
            b.start + HEADER_SIZE < b.end && b.start % ALIGN_SIZE == 0 && b.end % ALIGN_SIZE == 0
    ensures forall b :: b in bs ==>
            b.start in hdr && hdr[b.start].magic == HEAP_MAGIC && hdr[b.start].used == b.used
                && hdr[b.start].next == b.end
  {
    if bs != [] {
      ChainTiles(hdr, bs[1..], p, bs[0].end, hi);
      assert bs == [bs[0]] + bs[1..];
    }
  }

  /** A chain survives writes below it, and a new predecessor once its first
      header names that one. */
  lemma {:induction false} ChainRelink(hdr: Headers, hdr': Headers, bs: seq<Block>, prev: nat, prev': nat, p: nat,
                                       hi: nat)
    requires Chain(hdr, bs, prev, p, hi)
    requires p in hdr' && p in hdr && hdr'[p] == hdr[p].(prev := hdr'[p].prev)
    requires bs != [] ==> hdr'[p].prev == prev'
    requires forall q :: q > p && q in hdr ==> q in hdr' && hdr'[q] == hdr[q]
    ensures Chain(hdr', bs, prev', p, hi)
  {
    if bs != [] {
      ChainRelink(hdr, hdr', bs[1..], p, p, bs[0].end, hi);
    }
  }

  function PrevOf(bs: seq<Block>, i: nat, prev: nat): nat
    requires i <= |bs|
  {
    if i == 0 then prev else bs[i - 1].start
  }

  lemma {:induction false} ChainSuffix(hdr: Headers, bs: seq<Block>, i: nat, prev: nat, p: nat, hi: nat)
    requires Chain(hdr, bs, prev, p, hi) && i < |bs|
    ensures Chain(hdr, bs[i..], PrevOf(bs, i, prev), bs[i].start, hi)
  {
    if i > 0 {
      ChainSuffix(hdr, bs[1..], i - 1, p, bs[0].end, hi);
      assert bs[1..][i - 1..] == bs[i..];
    }
  }

  /** What the chain says at block i. */
  lemma ChainAt(hdr: Headers, bs: seq<Block>, i: nat, prev: nat, p: nat, hi: nat)
    requires Chain(hdr, bs, prev, p, hi) && i < |bs|
    ensures var b := bs[i];
            && b.start in hdr && hdr[b.start] == Header(HEAP_MAGIC, b.used, b.end, PrevOf(bs, i, prev))
            && b.start + HEADER_SIZE < b.end <= hi && b.end in hdr && hi in hdr
            && b.start % ALIGN_SIZE == 0 && b.end % ALIGN_SIZE == 0
            && Chain(hdr, bs[i + 1..], b.start, b.end, hi)
  {
    ChainSuffix(hdr, bs, i, prev, p, hi);
    assert bs[i..][1..] == bs[i + 1..];
    ChainTiles(hdr, bs[i + 1..], bs[i].start, bs[i].end, hi);
    if i + 1 < |bs| {
      AllOrdered(bs[i + 1..], bs[i].end, hi);
    }
  }

  /** Writes at or above block i leave the blocks before it chained to what the
      headers now spell from there on. */
  lemma {:induction false} ChainPrefix(hdr: Headers, hdr': Headers, bs: seq<Block>, i: nat, tail: seq<Block>,
                                       prev: nat, p: nat, hi: nat)
    requires Chain(hdr, bs, prev, p, hi) && i < |bs|
    requires forall q :: q < bs[i].start && q in hdr ==> q in hdr' && hdr'[q] == hdr[q]
    requires Chain(hdr', tail, PrevOf(bs, i, prev), bs[i].start, hi)
    ensures Chain(hdr', bs[..i] + tail, prev, p, hi)
  {
    if i == 0 {
      assert bs[..i] + tail == tail;
    } else {
      ChainTiles(hdr, bs, prev, p, hi);
      Ordered(bs, p, hi, 0, i);
      ChainPrefix(hdr, hdr', bs[1..], i - 1, tail, p, bs[0].end, hi);
      assert (bs[..i] + tail)[1..] == bs[1..][..i - 1] + tail;
    }
  }

  /** The header writes that carve a used block ending at mid out of b. */
  ghost function CarveHeaders(hdr: Headers, b: Block, mid: nat, hi: nat): Headers
    requires b.start in hdr && b.end in hdr && mid !in {b.start, b.end}
  {
    var carved := hdr[mid := Header(HEAP_MAGIC, false, b.end, b.start)]
                     [b.start := hdr[b.start].(used := true, next := mid)];
    if b.end != hi then carved[b.end := hdr[b.end].(prev := mid)] else carved
  }

  lemma CarveChain(hdr: Headers, bs: seq<Block>, i: nat, mid: nat, hi: nat)
    requires Chain(hdr, bs, 0, 0, hi) && i < |bs|
    requires bs[i].start + HEADER_SIZE < mid && mid + HEADER_SIZE < bs[i].end && mid % ALIGN_SIZE == 0
    ensures bs[i].start in hdr && bs[i].end in hdr
    ensures Chain(CarveHeaders(hdr, bs[i], mid, hi), Split(bs, i, mid, true, false), 0, 0, hi)
  {
    ChainAt(hdr, bs, i, 0, 0, hi);
    var b, rest := bs[i], bs[i + 1..];
    var hdr' := CarveHeaders(hdr, b, mid, hi);
    EndOrMore(hdr, rest, b.start, b.end, hi);
    ChainRelink(hdr, hdr', rest, b.start, mid, b.end, hi);
    var l, r := Block(b.start, mid, true), Block(mid, b.end, false);
    assert ([r] + rest)[1..] == rest && ([l] + ([r] + rest))[1..] == [r] + rest;
    assert Chain(hdr', [r] + rest, b.start, mid, hi);
    assert Chain(hdr', [l] + ([r] + rest), PrevOf(bs, i, 0), b.start, hi);
    ChainPrefix(hdr, hdr', bs, i, [l] + ([r] + rest), 0, 0, hi);
    assert bs[..i] + ([l] + ([r] + rest)) == Split(bs, i, mid, true, false);
  }

  lemma EndOrMore(hdr: Headers, bs: seq<Block>, prev: nat, p: nat, hi: nat)
    requires Chain(hdr, bs, prev, p, hi)
    ensures bs == [] <==> p == hi
  {
    ChainTiles(hdr, bs, prev, p, hi);
    if bs != [] {
      AllOrdered(bs, p, hi);
    }
  }

  /** The header writes by which `left` swallows its right neighbour. */
  ghost function JoinHeaders(hdr: Headers, left: Block, right: Block): Headers
    requires left.start in hdr && right.end in hdr
  {
    hdr[left.start := hdr[left.start].(next := right.end)][right.end := hdr[right.end].(prev := left.start)]
  }

  lemma JoinChain(hdr: Headers, bs: seq<Block>, i: nat, hi: nat)
    requires Chain(hdr, bs, 0, 0, hi) && i + 1 < |bs| && !bs[i].used
    ensures bs[i].start in hdr && bs[i + 1].end in hdr
    ensures Chain(JoinHeaders(hdr, bs[i], bs[i + 1]), Join(bs, i), 0, 0, hi)
  {
    ChainAt(hdr, bs, i, 0, 0, hi);
    ChainAt(hdr, bs, i + 1, 0, 0, hi);
    var l, r, rest := bs[i], bs[i + 1], bs[i + 2..];
    assert bs[i + 1..][0] == r;
    var hdr' := JoinHeaders(hdr, l, r);
    ChainRelink(hdr, hdr', rest, r.start, l.start, r.end, hi);
    var m := Block(l.start, r.end, false);
    assert ([m] + rest)[1..] == rest;
    ChainPrefix(hdr, hdr', bs, i, [m] + rest, 0, 0, hi);
    assert bs[..i] + ([m] + rest) == Join(bs, i);
  }

  lemma MarkChain(hdr: Headers, bs: seq<Block>, i: nat, used: bool, hi: nat)
    requires Chain(hdr, bs, 0, 0, hi) && i < |bs|
    ensures bs[i].start in hdr
    ensures Chain(hdr[bs[i].start := hdr[bs[i].start].(magic := HEAP_MAGIC, used := used)], Mark(bs, i, used), 0, 0, hi)
  {
    ChainAt(hdr, bs, i, 0, 0, hi);
    var b, rest := bs[i], bs[i + 1..];
    var hdr' := hdr[b.start := hdr[b.start].(magic := HEAP_MAGIC, used := used)];
    EndOrMore(hdr, rest, b.start, b.end, hi);
    ChainRelink(hdr, hdr', rest, b.start, b.start, b.end, hi);
    var m := b.(used := used);
    assert ([m] + rest)[1..] == rest;
    ChainPrefix(hdr, hdr', bs, i, [m] + rest, 0, 0, hi);
    assert bs[..i] + ([m] + rest) == Mark(bs, i, used);
  }

  /** The start of the lowest free block, or the sentinel if there is none. */
  ghost function LowestFree(bs: seq<Block>, hi: nat): nat {
    if bs == [] then hi else if !bs[0].used then bs[0].start else LowestFree(bs[1..], hi)
  }

  lemma {:induction false} LowestFreeAt(bs: seq<Block>, hi: nat, i: nat)
    requires i <= |bs| && forall k :: 0 <= k < i ==> bs[k].used
    requires i < |bs| ==> !bs[i].used
    ensures LowestFree(bs, hi) == if i < |bs| then bs[i].start else hi
  {
    if i > 0 {
      LowestFreeAt(bs[1..], hi, i - 1);
    }
  }

  /** The index of the lowest free block. */
  lemma {:induction false} LowestFreeIndex(bs: seq<Block>, hi: nat) returns (i: nat)
    ensures i <= |bs| && forall k :: 0 <= k < i ==> bs[k].used
    ensures i < |bs| ==> !bs[i].used
    ensures LowestFree(bs, hi) == if i < |bs| then bs[i].start else hi
  {
    if bs == [] || !bs[0].used {
      i := 0;
    } else {
      var k := LowestFreeIndex(bs[1..], hi);
      i := k + 1;
    }
  }

  // Payload bytes

  /** Every payload byte of the given blocks reads the same in both snapshots. */
  ghost predicate PayloadKept(before: seq<bv8>, after: seq<bv8>, bs: set<Block>) {
    && |before| == |after|
    && forall b, k :: b in bs && b.start + HEADER_SIZE <= k < b.end && k < |before| ==> after[k] == before[k]
  }

  /** A header written at p overlaps no payload of bs. */
  ghost predicate HeaderRoom(p: nat, bs: set<Block>) {
    forall b :: b in bs ==> p <= b.start || b.end <= p
  }

  lemma BoundaryRoom(bs: seq<Block>, i: nat, lo: nat, hi: nat)
    requires Tiles(bs, lo, hi) && i < |bs|
    ensures HeaderRoom(bs[i].start, Live(bs)) && HeaderRoom(bs[i].end, Live(bs))
  {
    AllOrdered(bs, lo, hi);
    forall b | b in Live(bs)
      ensures bs[i].start <= b.start || b.end <= bs[i].start
      ensures bs[i].end <= b.start || b.end <= bs[i].end
    {
      var k :| 0 <= k < |bs| && bs[k] == b;
    }
  }

  lemma InnerRoom(bs: seq<Block>, i: nat, mid: nat, lo: nat, hi: nat)
    requires Tiles(bs, lo, hi) && i < |bs| && bs[i].start <= mid <= bs[i].end
    ensures HeaderRoom(mid, Live(bs) - {bs[i]})
  {
    AllOrdered(bs, lo, hi);
    forall b | b in Live(bs) - {bs[i]} ensures mid <= b.start || b.end <= mid {
      var k :| 0 <= k < |bs| && bs[k] == b;
    }
  }

  // First fit

  ghost predicate Fits(b: Block, size: nat, memSize: nat) {
    !b.used && b.end - (b.start + HEADER_SIZE) >= size && b.start < memSize - size
  }

  /** A free block with room is passed over exactly if it fits to the byte and ends at the sentinel. */
  lemma PassedOver(b: Block, size: nat, memSize: nat)
    requires !b.used && b.end - (b.start + HEADER_SIZE) >= size && b.end <= memSize + HEADER_SIZE
    ensures !Fits(b, size, memSize) <==> b.start == memSize - size && b.end == memSize + HEADER_SIZE
  {
  }

  /** The block that an allocation of `size` makes out of the free block b. */
  ghost function Placed(b: Block, size: nat): Block {
    Block(b.start,
          if b.end - (b.start + HEADER_SIZE) >= size + HEADER_SIZE + MIN_SIZE then b.start + HEADER_SIZE + size
              else b.end,
          true)
  }

  /** The payload size rt_malloc looks for. */
  function Requested(request: nat): nat {
    var size := AlignUp(request);
    if size < MIN_SIZE then MIN_SIZE else size
  }

  lemma RequestedTwice(request: nat)
    ensures AlignUp(AlignUp(request)) == AlignUp(request) && Requested(AlignUp(request)) == Requested(request)
  {
  }

  lemma SearchStart(hdr: Headers, bs: seq<Block>, hi: nat, size: nat, memSize: nat) returns (i: nat)
    requires Chain(hdr, bs, 0, 0, hi)
    ensures i <= |bs| && LowestFree(bs, hi) == (if i < |bs| then bs[i].start else hi)
    ensures FirstFit(bs, size, memSize) == i + FirstFit(bs[i..], size, memSize)
  {
    i := LowestFreeIndex(bs, hi);
    FirstFitSkip(bs, i, size, memSize);
  }

  lemma {:induction false} FirstFitSkip(bs: seq<Block>, i: nat, size: nat, memSize: nat)
    requires i <= |bs| && forall k :: 0 <= k < i ==> bs[k].used
    ensures FirstFit(bs, size, memSize) == i + FirstFit(bs[i..], size, memSize)
  {
    if i > 0 {
      FirstFitSkip(bs[1..], i - 1, size, memSize);
      assert bs[1..][i - 1..] == bs[i..];
    } else {
      assert bs[i..] == bs;
    }
  }

  /** No block at or above memSize - size fits. */
  lemma SearchEnd(hdr: Headers, bs: seq<Block>, i: nat, hi: nat, size: nat, memSize: nat)
    requires Chain(hdr, bs, 0, 0, hi) && i <= |bs| && (i < |bs| ==> bs[i].start >= memSize - size)
    ensures FirstFit(bs[i..], size, memSize) == |bs[i..]|
  {
    ChainTiles(hdr, bs, 0, 0, hi);
    if bs != [] {
      AllOrdered(bs, 0, hi);
    }
    forall k | 0 <= k < |bs[i..]| ensures !Fits(bs[i..][k], size, memSize) {
      assert bs[i..][k] == bs[i + k];
    }
  }

  /** The index of the first block that fits, or |bs|. */
  ghost function FirstFit(bs: seq<Block>, size: nat, memSize: nat): (i: nat)
    ensures i <= |bs|
    ensures i < |bs| ==> Fits(bs[i], size, memSize)
    ensures forall j :: 0 <= j < i ==> !Fits(bs[j], size, memSize)
  {
    if bs == [] then 0
    else if Fits(bs[0], size, memSize) then 0
    else
      var k := FirstFit(bs[1..], size, memSize);
      assert forall j :: 0 < j <= k && j < |bs| ==> bs[j] == bs[1..][j - 1];
      k + 1
  }

  /** No block is found exactly if every free block with room is the one that is passed over. */
  lemma RefusedExactly(bs: seq<Block>, size: nat, memSize: nat)
    requires Tiles(bs, 0, memSize + HEADER_SIZE)
    ensures FirstFit(bs, size, memSize) == |bs| <==>
            forall b :: b in bs && !b.used && b.end - (b.start + HEADER_SIZE) >= size ==>
              b.start == memSize - size && b.end == memSize + HEADER_SIZE
  {
    AllOrdered(bs, 0, memSize + HEADER_SIZE);
    forall b | b in bs && !b.used && b.end - (b.start + HEADER_SIZE) >= size
      ensures !Fits(b, size, memSize) <==> b.start == memSize - size && b.end == memSize + HEADER_SIZE
    {
      PassedOver(b, size, memSize);
    }
    var i := FirstFit(bs, size, memSize);
    assert i < |bs| ==> bs[i] in bs;
    assert forall j :: 0 <= j < |bs| && Fits(bs[j], size, memSize) ==> bs[j] in bs;
  }

  /** The outcome of rt_malloc on a valid heap with layout bs. */
  ghost predicate MallocDone(bs: seq<Block>, request: nat, memSize: nat, p: Pointer, live: set<Block>) {
    var size := Requested(request);
    var i := FirstFit(bs, size, memSize);
    if request == 0 || AlignUp(request) > memSize || i == |bs| then p == Null && live == Live(bs)
    else p == At(bs[i].start + HEADER_SIZE) && live == Live(bs) + {Placed(bs[i], size)}
  }

  /** Allocate newsize bytes, then free b; or nothing, if there is no room. */
  ghost predicate MoveDone(bs: seq<Block>, b: Block, newsize: nat, memSize: nat, p: Pointer, live: set<Block>) {
    var size := Requested(newsize);
    var i := FirstFit(bs, size, memSize);
    if i == |bs| then p == Null && live == Live(bs)
    else p == At(bs[i].start + HEADER_SIZE) && live == Live(bs) + {Placed(bs[i], size)} - {b}
  }

  /** A live block given another size: left alone, cut in place, or moved. */
  ghost predicate ResizeDone(bs: seq<Block>, b: Block, newsize: nat, memSize: nat, p: Pointer, live: set<Block>) {
    var size, rmem := b.end - b.start - HEADER_SIZE, At(b.start + HEADER_SIZE);
    if size == newsize then p == rmem && live == Live(bs)
    else if newsize + HEADER_SIZE + MIN_SIZE < size then
      p == rmem && live == Live(bs) - {b} + {Block(b.start, b.start + HEADER_SIZE + newsize, true)}
    else MoveDone(bs, b, newsize, memSize, p, live)
  }

  /** The outcome of rt_realloc, branch by branch of its own tests. */
  ghost predicate ReallocDone(bs: seq<Block>, b: Block, rmem: Pointer, request: nat, memSize: nat, p: Pointer,
                              live: set<Block>) {
    var newsize := AlignUp(request);
    if newsize > memSize then p == Null && live == Live(bs)
    else if newsize == 0 then p == Null && live == if rmem.Null? then Live(bs) else Live(bs) - {b}
    else if rmem.Null? then MallocDone(bs, request, memSize, p, live)
    else if !(0 <= rmem.offset < memSize + HEADER_SIZE) then p == rmem && live == Live(bs)
    else ResizeDone(bs, b, newsize, memSize, p, live)
  }

  /** How many payload bytes survive a reallocation of b. */
  function CommonLength(b: Block, request: nat): (n: int)
    ensures Min(b.end - b.start - HEADER_SIZE, request) <= n <= b.end - b.start - HEADER_SIZE
  {
    Min(b.end - b.start - HEADER_SIZE, AlignUp(request))
  }

  // What the caller gets

  /** The block in use whose payload is at p, if it is of the right size. */
  ghost function Serving(bs: seq<Block>, live: set<Block>, p: Pointer, request: nat): set<Block> {
    set b | b in live && p == At(b.start + HEADER_SIZE) && p.offset % ALIGN_SIZE == 0
            && RightSize(bs, b, b.end - b.start - HEADER_SIZE, request)
  }

  /** A block b that holds the request. If it ends inside a block c of the layout from before, it is
      no longer than rounding up makes it and leaves enough of c for another block; if it ends where
      c did, it has at most too little to spare for one. */
  ghost predicate RightSize(bs: seq<Block>, b: Block, room: int, request: nat) {
    var enough := Max(request + ALIGN_SIZE - 1, MIN_SIZE);
    request <= room && exists c :: c in bs && FitsIn(c, b.end, room, enough)
  }

  ghost predicate FitsIn(c: Block, end: int, room: int, enough: int) {
    if end == c.end then room < enough + HEADER_SIZE + MIN_SIZE
    else c.start < end && end + HEADER_SIZE + MIN_SIZE <= c.end && room <= enough
  }

  /** The free blocks with room for the request, but for one that ends at the sentinel and would
      be filled to the last word. */
  ghost function Roomy(bs: seq<Block>, request: nat, end: nat): set<Block> {
    set b | b in bs && !b.used && b.end - b.start - HEADER_SIZE >= Max(request, MIN_SIZE)
            && !(b.end == end && b.end - b.start - HEADER_SIZE <= Max(request + ALIGN_SIZE - 1, MIN_SIZE))
  }

  /** Blocks that no layout spelled out by headers has. */
  ghost function Odd(bs: seq<Block>): set<Block> {
    set b | b in bs && !Even(b)
  }

  ghost predicate Even(b: Block) {
    b.start + HEADER_SIZE < b.end && b.start % ALIGN_SIZE == 0 && b.end % ALIGN_SIZE == 0
  }

  ghost predicate Laid(bs: seq<Block>, hi: nat) {
    Tiles(bs, 0, hi) && Odd(bs) == {}
  }

  lemma ChainLaid(hdr: Headers, bs: seq<Block>, hi: nat)
    requires Chain(hdr, bs, 0, 0, hi) && hi > 0
    ensures Laid(bs, hi)
  {
    ChainTiles(hdr, bs, 0, 0, hi);
  }

  lemma BlockServes(bs: seq<Block>, live: set<Block>, f: Block, request: nat)
    requires f in live && f.start % ALIGN_SIZE == 0 && RightSize(bs, f, f.end - f.start - HEADER_SIZE, request)
    ensures Serving(bs, live, At(f.start + HEADER_SIZE), request) != {}
  {
    assert f in Serving(bs, live, At(f.start + HEADER_SIZE), request);
  }

  lemma PlacedServes(bs: seq<Block>, c: Block, request: nat, size: nat, memSize: nat, live: set<Block>)
    requires Odd(bs) == {} && c in bs && Fits(c, size, memSize) && size == Requested(request)
    requires Placed(c, size) in live
    ensures Serving(bs, live, At(c.start + HEADER_SIZE), request) != {}
  {
    assert c !in Odd(bs);
    var f := Placed(c, size);
    assert FitsIn(c, f.end, f.end - f.start - HEADER_SIZE, Max(request + ALIGN_SIZE - 1, MIN_SIZE));
    BlockServes(bs, live, f, request);
  }

  lemma RoomRounded(room: int, request: nat)
    requires room % ALIGN_SIZE == 0
    ensures room >= Max(request, MIN_SIZE) <==> room >= Requested(request)
    ensures room <= Max(request + ALIGN_SIZE - 1, MIN_SIZE) <==> room <= Requested(request)
  {
  }

  lemma RefusedBlock(b: Block, request: nat, memSize: nat)
    requires b.start % ALIGN_SIZE == 0 && b.end % ALIGN_SIZE == 0
    ensures var room, size := b.end - b.start - HEADER_SIZE, Requested(request);
            && (room >= Max(request, MIN_SIZE) <==> room >= size)
            && (b.end == memSize + HEADER_SIZE && room >= size ==>
                 (room <= Max(request + ALIGN_SIZE - 1, MIN_SIZE) <==> b.start == memSize - size))
  {
    RoomRounded(b.end - b.start - HEADER_SIZE, request);
  }

  lemma NoRoomExactly(bs: seq<Block>, request: nat, memSize: nat)
    requires Laid(bs, memSize + HEADER_SIZE)
    ensures FirstFit(bs, Requested(request), memSize) == |bs| <==> Roomy(bs, request, memSize + HEADER_SIZE) == {}
  {
    var size := Requested(request);
    RefusedExactly(bs, size, memSize);
    forall b | b in bs
      ensures b in Roomy(bs, request, memSize + HEADER_SIZE) <==>
              !b.used && b.end - b.start - HEADER_SIZE >= size
                  && !(b.start == memSize - size && b.end == memSize + HEADER_SIZE)
    {
      assert b !in Odd(bs);
      RefusedBlock(b, request, memSize);
    }
  }

  lemma NullExactly(bs: seq<Block>, request: nat, memSize: nat, p: Pointer, live: set<Block>)
    requires Laid(bs, memSize + HEADER_SIZE) && MallocDone(bs, request, memSize, p, live)
    ensures p == Null <==> request == 0 || Roomy(bs, request, memSize + HEADER_SIZE) == {}
  {
    NoRoomExactly(bs, request, memSize);
    if AlignUp(request) > memSize {
      AllOrdered(bs, 0, memSize + HEADER_SIZE);
    }
  }

  /** What rt_malloc promises its caller, whatever it rounds to and wherever it looks. */
  lemma MallocServes(bs: seq<Block>, request: nat, memSize: nat, p: Pointer, live: set<Block>)
    requires Laid(bs, memSize + HEADER_SIZE) && MallocDone(bs, request, memSize, p, live)
    ensures p == Null <==> request == 0 || Roomy(bs, request, memSize + HEADER_SIZE) == {}
    ensures p.At? ==> Serving(bs, live, p, request) != {}
  {
    NullExactly(bs, request, memSize, p, live);
    if p.At? {
      FoundServes(bs, request, Requested(request), memSize, p, live);
    }
  }

  lemma FoundServes(bs: seq<Block>, request: nat, size: nat, memSize: nat, p: Pointer, live: set<Block>)
    requires Laid(bs, memSize + HEADER_SIZE) && size == Requested(request) && FirstFit(bs, size, memSize) < |bs|
    requires var c := bs[FirstFit(bs, size, memSize)]; p == At(c.start + HEADER_SIZE) && Placed(c, size) in live
    ensures Serving(bs, live, p, request) != {}
  {
    PlacedServes(bs, bs[FirstFit(bs, size, memSize)], request, size, memSize, live);
  }

  /** And rt_realloc, for a null argument or one inside the heap: null only if nothing would do. */
  lemma ReallocServes(bs: seq<Block>, b: Block, rmem: Pointer, request: nat, memSize: nat, p: Pointer,
                      live: set<Block>)
    requires Laid(bs, memSize + HEADER_SIZE) && ReallocDone(bs, b, rmem, request, memSize, p, live)
    requires rmem.At? ==> 0 <= rmem.offset < memSize + HEADER_SIZE && (AlignUp(request) == 0 || b in Live(bs))
    ensures p.At? ==> Serving(bs, live, p, request) != {}
    ensures p.Null? && request > 0 ==> Roomy(bs, request, memSize + HEADER_SIZE) == {}
  {
    if p.At? {
      if rmem.Null? {
        MallocServes(bs, request, memSize, p, live);
      } else {
        ResizeServes(bs, b, request, memSize, p, live);
      }
    } else if AlignUp(request) > memSize || rmem.Null? {
      NullExactly(bs, request, memSize, Null, Live(bs));
    } else if request > 0 {
      ResizeRefused(bs, b, request, memSize, live);
    }
  }

  lemma TooLarge(bs: seq<Block>, request: nat, memSize: nat)
    requires Laid(bs, memSize + HEADER_SIZE) && AlignUp(request) > memSize
    ensures Roomy(bs, request, memSize + HEADER_SIZE) == {}
  {
    NullExactly(bs, request, memSize, Null, Live(bs));
  }

  lemma ResizeRefused(bs: seq<Block>, b: Block, request: nat, memSize: nat, live: set<Block>)
    requires Laid(bs, memSize + HEADER_SIZE) && ResizeDone(bs, b, AlignUp(request), memSize, Null, live)
    ensures Roomy(bs, request, memSize + HEADER_SIZE) == {}
  {
    RequestedTwice(request);
    NoRoomExactly(bs, request, memSize);
  }

  lemma CutServes(bs: seq<Block>, b: Block, n: nat, request: nat, live: set<Block>)
    requires b in bs && b.start % ALIGN_SIZE == 0 && n == AlignUp(request)
    requires n + HEADER_SIZE + MIN_SIZE < b.end - b.start - HEADER_SIZE
    requires Block(b.start, b.start + HEADER_SIZE + n, true) in live
    ensures Serving(bs, live, At(b.start + HEADER_SIZE), request) != {}
  {
    assert FitsIn(b, b.start + HEADER_SIZE + n, n, Max(request + ALIGN_SIZE - 1, MIN_SIZE));
    BlockServes(bs, live, Block(b.start, b.start + HEADER_SIZE + n, true), request);
  }

  lemma NewBlock(bs: seq<Block>, i: nat, size: nat, hi: nat)
    requires Tiles(bs, 0, hi) && i < |bs| && !bs[i].used
    ensures Placed(bs[i], size) !in Live(bs)
  {
    AllOrdered(bs, 0, hi);
  }

  lemma MoveServes(bs: seq<Block>, b: Block, request: nat, memSize: nat, p: Pointer, live: set<Block>)
    requires Laid(bs, memSize + HEADER_SIZE) && b in Live(bs) && p.At?
    requires MoveDone(bs, b, AlignUp(request), memSize, p, live)
    ensures Serving(bs, live, p, request) != {}
  {
    var size := Requested(request);
    RequestedTwice(request);
    NewBlock(bs, FirstFit(bs, size, memSize), size, memSize + HEADER_SIZE);
    FoundServes(bs, request, size, memSize, p, live);
  }

  lemma ResizeServes(bs: seq<Block>, b: Block, request: nat, memSize: nat, p: Pointer, live: set<Block>)
    requires Laid(bs, memSize + HEADER_SIZE) && b in Live(bs) && p.At?
    requires ResizeDone(bs, b, AlignUp(request), memSize, p, live)
    ensures Serving(bs, live, p, request) != {}
  {
    var n, size := AlignUp(request), b.end - b.start - HEADER_SIZE;
    assert b !in Odd(bs);
    if size == n {
      assert FitsIn(b, b.end, size, Max(request + ALIGN_SIZE - 1, MIN_SIZE));
      BlockServes(bs, live, b, request);
    } else if n + HEADER_SIZE + MIN_SIZE < size {
      CutServes(bs, b, n, request, live);
    } else {
      MoveServes(bs, b, request, memSize, p, live);
    }
  }

  class SmallHeap {
    const memSize: nat
    const data: array<bv8>
    var hdr: Headers
    var lfree: nat
    var usedMem: int
    var maxMem: int
    ghost var blocks: seq<Block>

    function HeapEnd(): nat {
      memSize + HEADER_SIZE
    }

    /** Everything but "no two neighbouring free blocks", which plug_holes restores. */
    ghost predicate Wired()
      reads this
    {
      && MIN_SIZE <= memSize && data.Length == HeapEnd() + HEADER_SIZE
      && Chain(hdr, blocks, 0, 0, HeapEnd())
      && lfree == LowestFree(blocks, HeapEnd())
      && usedMem == Sum(blocks, true, 0) && usedMem <= maxMem
    }

    ghost predicate Valid()
      reads this
    {
      Wired() && FreePairs(blocks) == {}
    }

    /** rt_system_heap_init on an aligned region that leaves memSize bytes beside two headers. */
    constructor (memSize: nat)
      requires MIN_SIZE <= memSize && memSize % ALIGN_SIZE == 0
      ensures Valid() && blocks == [Block(0, memSize + HEADER_SIZE, false)]
      ensures this.memSize == memSize && usedMem == 0 && maxMem == 0 && fresh(data)
    {
      var end := memSize + HEADER_SIZE;
      this.memSize := memSize;
      data := new bv8[end + HEADER_SIZE];
      hdr := map[0 := Header(HEAP_MAGIC, false, end, 0), end := Header(HEAP_MAGIC, true, end, end)];
      lfree := 0;
      usedMem, maxMem := 0, 0;
      blocks := [Block(0, end, false)];
    }

    /** Stores a header; its bytes land in the region like any other store. */
    method WriteHeader(p: nat, h: Header, ghost keep: set<Block>)
      requires p + HEADER_SIZE <= data.Length && HeaderRoom(p, keep)
      modifies this`hdr, data
      ensures hdr == old(hdr)[p := h]
      ensures PayloadKept(old(data[..]), data[..], keep)
    {
      for n := 0 to HEADER_SIZE
        invariant hdr == old(hdr)
        invariant forall k :: 0 <= k < data.Length && !(p <= k < p + HEADER_SIZE) ==> data[k] == old(data[k])
      {
        data[p + n] := *;
      }
      hdr := hdr[p := h];
    }

    /** The shape both halves of plug_holes share: the free block `left` swallows
        its free right neighbour. */
    method Absorb(left: nat, right: nat, ghost i: nat)
      requires Wired() && i + 1 < |blocks| && !blocks[i].used && !blocks[i + 1].used
      requires left == blocks[i].start && right == blocks[i + 1].start
      modifies this`hdr, this`lfree, this`blocks, data
      ensures Wired() && blocks == Join(old(blocks), i) && Live(blocks) == old(Live(blocks))
      ensures PayloadKept(old(data[..]), data[..], Live(blocks))
    {
      ghost var bs := blocks;
      JoinFacts(hdr, bs, i, HeapEnd());
      ghost var joined := JoinHeaders(hdr, bs[i], bs[i + 1]);
      if lfree == right {
        lfree := left;
      }
      LinkOver(left, right, Live(bs));
      assert hdr == joined;
      blocks := Join(bs, i);
    }

    /** Coalesces the free block at mem with its free neighbours. */
    method PlugHoles(mem: nat, ghost i: nat)
      requires Wired() && i < |blocks| && mem == blocks[i].start && !blocks[i].used
      requires FreePairs(blocks) <= {i - 1, i}
      modifies this`hdr, this`lfree, this`blocks, data
      ensures Valid() && Live(blocks) == old(Live(blocks))
      ensures PayloadKept(old(data[..]), data[..], Live(blocks))
    {
      ghost var live, d0 := Live(blocks), data[..];
      Neighbours(hdr, blocks, i, HeapEnd());
      MergeRight(blocks, i);
      var nmem := hdr[mem].next;
      if mem != nmem && !hdr[nmem].used && nmem != HeapEnd() {
        Absorb(mem, nmem, i);
      }
      ghost var d1 := data[..];
      Neighbours(hdr, blocks, i, HeapEnd());
      MergeLeft(blocks, i);
      var pmem := hdr[mem].prev;
      if pmem != mem && !hdr[pmem].used {
        Absorb(pmem, mem, i - 1);
        KeptTwice(d0, d1, data[..], live);
      }
    }

    /** rt_free. A non-null argument must come from an allocation, here the one
        that owns block b. */
    method Free(rmem: Pointer, ghost b: Block)
      requires Valid()
      requires rmem.Null? || (b in Live(blocks) && rmem == At(b.start + HEADER_SIZE))
      modifies this`hdr, this`lfree, this`usedMem, this`blocks, data
      ensures Valid()
      ensures Live(blocks) == if rmem.Null? then old(Live(blocks)) else old(Live(blocks)) - {b}
      ensures PayloadKept(old(data[..]), data[..], Live(blocks))
    {
      if rmem == Null {
        return;
      }
      var mem := rmem.offset - HEADER_SIZE;
      ghost var i :| 0 <= i < |blocks| && blocks[i] == b;
      ghost var bs, d0 := blocks, data[..];
      FreeFacts(hdr, bs, i, HeapEnd());
      assert hdr[mem].used;
      assert hdr[mem].magic == HEAP_MAGIC;
      WriteHeader(mem, hdr[mem].(used := false, magic := HEAP_MAGIC), Live(bs));
      if mem < lfree {
        lfree := mem;
      }
      usedMem := usedMem - (hdr[mem].next - mem);
      blocks := Mark(bs, i, false);
      ghost var d1 := data[..];
      PlugHoles(mem, i);
      KeptTwice(d0, d1, data[..], Live(blocks));
    }

    /** After the lowest free block was taken: the next free one, or the sentinel. */
    method AdvanceLfree(ghost i: nat)
      requires Chain(hdr, blocks, 0, 0, HeapEnd()) && i < |blocks| && lfree == blocks[i].start
      requires LowestFree(blocks, HeapEnd()) == LowestFree(blocks[i..], HeapEnd())
      modifies this`lfree
      ensures lfree == LowestFree(blocks, HeapEnd())
    {
      ghost var j := i;
      Neighbours(hdr, blocks, i, HeapEnd());
      while hdr[lfree].used && lfree != HeapEnd()
        invariant j <= |blocks| && lfree == (if j < |blocks| then blocks[j].start else HeapEnd())
        invariant lfree in hdr && (j < |blocks| ==> lfree != HeapEnd() && hdr[lfree].used == blocks[j].used)
        invariant j == |blocks| ==> hdr[lfree].used
        invariant LowestFree(blocks, HeapEnd()) == LowestFree(blocks[j..], HeapEnd())
        decreases |blocks| - j
      {
        Neighbours(hdr, blocks, j, HeapEnd());
        assert blocks[j..][1..] == blocks[j + 1..];
        lfree := hdr[lfree].next;
        j := j + 1;
        if j < |blocks| {
          Neighbours(hdr, blocks, j, HeapEnd());
        }
      }
    }

    /** rt_malloc: first fit above the lowest free block. */
    method Malloc(request: nat) returns (p: Pointer)
      requires Valid() && request <= MAX_SIZE - (ALIGN_SIZE - 1)
      modifies this, data
      ensures Valid()
      ensures MallocDone(old(blocks), request, memSize, p, Live(blocks))
      ensures if p.Null? then unchanged(this) && data[..] == old(data[..]) else maxMem == Max(old(maxMem), usedMem)
      ensures p == Null <==> request == 0 || Roomy(old(blocks), request, HeapEnd()) == {}
      ensures p.At? ==> Serving(old(blocks), Live(blocks), p, request) != {}
      ensures PayloadKept(old(data[..]), data[..], old(Live(blocks)))
    {
      ghost var bs := blocks;
      ChainLaid(hdr, bs, HeapEnd());
      p := Allocate(request);
      MallocServes(bs, request, memSize, p, Live(blocks));
    }

    method Allocate(request: nat) returns (p: Pointer)
      requires Valid() && request <= MAX_SIZE - (ALIGN_SIZE - 1)
      modifies this, data
      ensures Valid() && MallocDone(old(blocks), request, memSize, p, Live(blocks))
      ensures if p.Null? then unchanged(this) && data[..] == old(data[..]) else maxMem == Max(old(maxMem), usedMem)
      ensures PayloadKept(old(data[..]), data[..], old(Live(blocks)))
    {
      if request == 0 {
        return Null;
      }
      var size := AlignUp(request);
      if size > memSize {
        return Null;
      }
      if size < MIN_SIZE {
        size := MIN_SIZE;
      }
      var ptr;
      ghost var i;
      ptr, i := Search(size);
      if ptr < memSize - size {
        Take(ptr, size, i);
        return At(ptr + HEADER_SIZE);
      }
      return Null;
    }

    /** The search loop: stops at the first block that fits, or at an offset too
        high for any. */
    method Search(size: nat) returns (ptr: nat, ghost i: nat)
      requires Valid() && size <= memSize
      ensures i == FirstFit(blocks, size, memSize)
      ensures ptr < memSize - size <==> i < |blocks|
      ensures i < |blocks| ==> ptr == blocks[i].start
    {
      i := SearchStart(hdr, blocks, HeapEnd(), size, memSize);
      ptr := lfree;
      while ptr < memSize - size
        invariant i <= |blocks| && ptr == (if i < |blocks| then blocks[i].start else HeapEnd())
        invariant FirstFit(blocks, size, memSize) == i + FirstFit(blocks[i..], size, memSize)
        decreases |blocks| - i
      {
        Neighbours(hdr, blocks, i, HeapEnd());
        ChainAt(hdr, blocks, i, 0, 0, HeapEnd());
        if !hdr[ptr].used && hdr[ptr].next - (ptr + HEADER_SIZE) >= size {
          assert Fits(blocks[i], size, memSize);
          return;
        }
        assert blocks[i..][1..] == blocks[i + 1..];
        ptr := hdr[ptr].next;
        i := i + 1;
      }
      SearchEnd(hdr, blocks, i, HeapEnd(), size, memSize);
      i := |blocks|;
    }

    predicate InHeap(rmem: Pointer) {
      rmem.At? && 0 <= rmem.offset < HeapEnd()
    }

    /** rt_realloc to newsize bytes in place: the tail becomes a free block. */
    method Shrink(mem: nat, newsize: nat, ghost i: nat)
      requires Valid() && i < |blocks| && blocks[i].used && mem == blocks[i].start
      requires 0 < newsize && newsize % ALIGN_SIZE == 0
      requires newsize + HEADER_SIZE + MIN_SIZE < blocks[i].end - mem - HEADER_SIZE
      modifies this`hdr, this`lfree, this`usedMem, this`blocks, data
      ensures Valid()
      ensures Live(blocks) == old(Live(blocks)) - {old(blocks[i])} + {Block(mem, mem + HEADER_SIZE + newsize, true)}
      ensures PayloadKept(old(data[..]), data[..], Live(blocks))
    {
      ghost var d0 := data[..];
      CutBlock(mem, newsize, i);
      ghost var d1, live := data[..], Live(blocks);
      PlugHoles(mem + HEADER_SIZE + newsize, i + 1);
      KeptTwice(d0, d1, data[..], live);
    }

    /** The new free block, before it is merged with a free right neighbour. */
    method CutBlock(mem: nat, newsize: nat, ghost i: nat)
      requires Valid() && i < |blocks| && blocks[i].used && mem == blocks[i].start
      requires 0 < newsize && newsize % ALIGN_SIZE == 0
      requires newsize + HEADER_SIZE + MIN_SIZE < blocks[i].end - mem - HEADER_SIZE
      modifies this`hdr, this`lfree, this`usedMem, this`blocks, data
      ensures Wired() && FreePairs(blocks) <= {i, i + 1} && i + 1 < |blocks|
      ensures !blocks[i + 1].used && blocks[i + 1].start == mem + HEADER_SIZE + newsize
      ensures Live(blocks) == old(Live(blocks)) - {old(blocks[i])} + {Block(mem, mem + HEADER_SIZE + newsize, true)}
      ensures PayloadKept(old(data[..]), data[..], Live(blocks))
    {
      ghost var bs := blocks;
      var mid := mem + HEADER_SIZE + newsize;
      ChainAt(hdr, bs, i, 0, 0, HeapEnd());
      ShrinkFacts(hdr, bs, i, mid, HeapEnd());
      usedMem := usedMem - (hdr[mem].next - mem - HEADER_SIZE - newsize);
      Carve(mem, mid, Live(Split(bs, i, mid, true, false)));
      blocks := Split(bs, i, mid, true, false);
      if mid < lfree {
        lfree := mid;
      }
    }

    /** Copies n bytes from live block b to live block f and frees b. */
    method Transfer(n: nat, ghost live: set<Block>, ghost b: Block, ghost f: Block, rmem: Pointer, p: Pointer,
                    ghost d0: seq<bv8>)
      requires Valid() && Live(blocks) == live + {f} && b in live && f !in live && ApartFromAll(f, live)
      requires rmem == At(b.start + HEADER_SIZE) && p == At(f.start + HEADER_SIZE)
      requires rmem.offset + n <= b.end <= data.Length && p.offset + n <= f.end <= data.Length
      requires PayloadKept(d0, data[..], live)
      modifies this`hdr, this`lfree, this`usedMem, this`blocks, data
      ensures Valid() && Live(blocks) == live + {f} - {b}
      ensures Bytes(data[..], p.offset, n) == Bytes(d0, rmem.offset, n)
      ensures PayloadKept(d0, data[..], live - {b})
    {
      ghost var d1 := data[..];
      MemCpy(data, p.offset, rmem.offset, n);
      ghost var d2 := data[..];
      CopyKeeps(d0, d1, d2, live, b, f, n);
      Free(rmem, b);
      FreeKeeps(d0, d2, data[..], live, b, f, n);
    }

    /** rt_realloc by allocating, copying and freeing. */
    method Move(rmem: Pointer, size: nat, newsize: nat, ghost b: Block) returns (p: Pointer)
      requires Valid() && 0 < newsize <= memSize && newsize <= MAX_SIZE - (ALIGN_SIZE - 1)
      requires newsize % ALIGN_SIZE == 0
      requires b in Live(blocks) && rmem == At(b.start + HEADER_SIZE) && size == b.end - b.start - HEADER_SIZE
      modifies this, data
      ensures Valid()
      ensures MoveDone(old(blocks), b, newsize, memSize, p, Live(blocks))
      ensures p.Null? ==> unchanged(this) && data[..] == old(data[..])
      ensures p.At? ==>
              Bytes(data[..], p.offset, Min(size, newsize)) == Bytes(old(data[..]), rmem.offset, Min(size, newsize))
      ensures PayloadKept(old(data[..]), data[..], old(Live(blocks)) - {b})
    {
      ghost var bs, live, d0 := blocks, Live(blocks), data[..];
      ghost var i := FirstFit(bs, Requested(newsize), memSize);
      if i < |bs| {
        MoveFacts(hdr, bs, b, Requested(newsize), memSize, HeapEnd());
      }
      p := Malloc(newsize);
      if p != Null {
        Transfer(Min(size, newsize), live, b, Placed(bs[i], Requested(newsize)), rmem, p, d0);
      }
    }

    /** rt_realloc. An argument inside the heap must come from an allocation. */
    method Realloc(rmem: Pointer, request: nat, ghost b: Block) returns (p: Pointer)
      requires Valid() && request <= MAX_SIZE - (ALIGN_SIZE - 1)
      requires InHeap(rmem) || (rmem.At? && request == 0) ==> b in Live(blocks) && rmem == At(b.start + HEADER_SIZE)
      modifies this, data
      ensures Valid()
      ensures ReallocDone(old(blocks), b, rmem, request, memSize, p, Live(blocks))
      ensures p.At? && (rmem.Null? || InHeap(rmem)) ==> Serving(old(blocks), Live(blocks), p, request) != {}
      ensures p.Null? && request > 0 ==> Roomy(old(blocks), request, HeapEnd()) == {}
      ensures PayloadKept(old(data[..]), data[..], old(Live(blocks)) * Live(blocks))
      ensures InHeap(rmem) && p.At? ==>
                Bytes(data[..], p.offset, CommonLength(b, request)) ==
                    Bytes(old(data[..]), rmem.offset, CommonLength(b, request))
    {
      ghost var bs := blocks;
      ChainLaid(hdr, bs, HeapEnd());
      p := Reallocate(rmem, request, b);
      if rmem.Null? || InHeap(rmem) {
        ReallocServes(bs, b, rmem, request, memSize, p, Live(blocks));
      } else if p.Null? && request > 0 {
        TooLarge(bs, request, memSize);
      }
    }

    method Reallocate(rmem: Pointer, request: nat, ghost b: Block) returns (p: Pointer)
      requires Valid() && request <= MAX_SIZE - (ALIGN_SIZE - 1)
      requires InHeap(rmem) || (rmem.At? && request == 0) ==> b in Live(blocks) && rmem == At(b.start + HEADER_SIZE)
      modifies this, data
      ensures Valid()
      ensures ReallocDone(old(blocks), b, rmem, request, memSize, p, Live(blocks))
      ensures PayloadKept(old(data[..]), data[..], old(Live(blocks)) * Live(blocks))
      ensures InHeap(rmem) && p.At? ==>
                Bytes(data[..], p.offset, CommonLength(b, request)) ==
                    Bytes(old(data[..]), rmem.offset, CommonLength(b, request))
    {
      var newsize := AlignUp(request);
      if newsize > memSize {
        return Null;
      } else if newsize == 0 {
        Free(rmem, b);
        return Null;
      }
      if rmem == Null {
        RequestedTwice(request);
        p := Malloc(newsize);
        return;
      }
      if rmem.offset < 0 || rmem.offset >= HeapEnd() {
        return rmem;
      }
      p := Resize(rmem, newsize, b);
    }

    /** rt_realloc of a live block to an aligned size the heap could hold. */
    method Resize(rmem: Pointer, newsize: nat, ghost b: Block) returns (p: Pointer)
      requires Valid() && 0 < newsize <= memSize && newsize <= MAX_SIZE - (ALIGN_SIZE - 1)
      requires newsize % ALIGN_SIZE == 0
      requires b in Live(blocks) && rmem == At(b.start + HEADER_SIZE)
      modifies this, data
      ensures Valid()
      ensures ResizeDone(old(blocks), b, newsize, memSize, p, Live(blocks))
      ensures PayloadKept(old(data[..]), data[..], old(Live(blocks)) * Live(blocks))
      ensures p.At? ==>
              Bytes(data[..], p.offset, CommonLength(b, newsize)) ==
                  Bytes(old(data[..]), rmem.offset, CommonLength(b, newsize))
    {
      var mem := rmem.offset - HEADER_SIZE;
      SizeOfLive(hdr, blocks, b, HeapEnd());
      var size := hdr[mem].next - mem - HEADER_SIZE;
      if size == newsize {
        return rmem;
      }
      if newsize + HEADER_SIZE + MIN_SIZE < size {
        ShrinkInPlace(rmem, newsize, b);
        return rmem;
      }
      p := MoveAside(rmem, size, newsize, b);
    }

    /** The branch of rt_realloc that cuts the block. */
    method ShrinkInPlace(rmem: Pointer, newsize: nat, ghost b: Block)
      requires Valid() && b in Live(blocks) && rmem == At(b.start + HEADER_SIZE)
      requires 0 < newsize && newsize % ALIGN_SIZE == 0
               && newsize + HEADER_SIZE + MIN_SIZE < b.end - b.start - HEADER_SIZE
      modifies this`hdr, this`lfree, this`usedMem, this`blocks, data
      ensures Valid()
      ensures ResizeDone(old(blocks), b, newsize, memSize, rmem, Live(blocks))
      ensures PayloadKept(old(data[..]), data[..], old(Live(blocks)) * Live(blocks))
      ensures Bytes(data[..], rmem.offset, CommonLength(b, newsize)) ==
              Bytes(old(data[..]), rmem.offset, CommonLength(b, newsize))
    {
      ghost var was, live := data[..], Live(blocks);
      ghost var i :| 0 <= i < |blocks| && blocks[i] == b;
      Shrink(rmem.offset - HEADER_SIZE, newsize, i);
      ShrunkPrefix(was, data[..], Live(blocks), Block(b.start, b.start + HEADER_SIZE + newsize, true), newsize);
      KeptFewer(was, data[..], Live(blocks), live * Live(blocks));
    }

    /** The branch of rt_realloc that moves it. */
    method MoveAside(rmem: Pointer, size: nat, newsize: nat, ghost b: Block) returns (p: Pointer)
      requires Valid() && 0 < newsize <= memSize && newsize <= MAX_SIZE - (ALIGN_SIZE - 1)
      requires newsize % ALIGN_SIZE == 0 && newsize != size <= newsize + HEADER_SIZE + MIN_SIZE
      requires b in Live(blocks) && rmem == At(b.start + HEADER_SIZE) && size == b.end - b.start - HEADER_SIZE
      modifies this, data
      ensures Valid()
      ensures ResizeDone(old(blocks), b, newsize, memSize, p, Live(blocks))
      ensures p.At? ==>
              Bytes(data[..], p.offset, CommonLength(b, newsize)) ==
                  Bytes(old(data[..]), rmem.offset, CommonLength(b, newsize))
      ensures PayloadKept(old(data[..]), data[..], old(Live(blocks)) * Live(blocks))
    {
      ghost var d0, bs := data[..], blocks;
      p := Move(rmem, size, newsize, b);
      MovedAside(d0, data[..], bs, Live(blocks), b, newsize, memSize, p);
    }

    /** Turns the front of a fitting free block, or all of it, into a used block. */
    method Occupy(mem: nat, size: nat, ghost i: nat)
      requires Valid() && i < |blocks| && mem == blocks[i].start
      requires Fits(blocks[i], size, memSize) && MIN_SIZE <= size && size % ALIGN_SIZE == 0
      modifies this`hdr, this`usedMem, this`maxMem, this`blocks, data
      ensures Taken(old(blocks), i, size, HeapEnd(), hdr, blocks)
      ensures usedMem == Sum(blocks, true, 0) && maxMem == Max(old(maxMem), usedMem)
      ensures PayloadKept(old(data[..]), data[..], old(Live(blocks)))
    {
      ghost var bs := blocks;
      ChainAt(hdr, bs, i, 0, 0, HeapEnd());
      if hdr[mem].next - (mem + HEADER_SIZE) >= size + HEADER_SIZE + MIN_SIZE {
        var mid := mem + HEADER_SIZE + size;
        TakenBySplit(hdr, bs, i, size, HeapEnd());
        Carve(mem, mid, Live(bs));
        usedMem := usedMem + (size + HEADER_SIZE);
        blocks := Split(bs, i, mid, true, false);
      } else {
        TakenWhole(hdr, bs, i, size, HeapEnd());
        WriteHeader(mem, hdr[mem].(used := true, magic := HEAP_MAGIC), Live(bs));
        usedMem := usedMem + (hdr[mem].next - mem);
        blocks := Mark(bs, i, true);
      }
      if maxMem < usedMem {
        maxMem := usedMem;
      }
    }

    /** The body of rt_malloc's search loop once a block fits. */
    method Take(mem: nat, size: nat, ghost i: nat)
      requires Valid() && i < |blocks| && mem == blocks[i].start
      requires Fits(blocks[i], size, memSize) && MIN_SIZE <= size && size % ALIGN_SIZE == 0
      modifies this, data
      ensures Valid() && Live(blocks) == old(Live(blocks)) + {Placed(old(blocks[i]), size)}
      ensures maxMem == Max(old(maxMem), usedMem)
      ensures PayloadKept(old(data[..]), data[..], old(Live(blocks)))
    {
      Occupy(mem, size, i);
      if mem == lfree {
        AdvanceLfree(i);
      }
    }

    /** Writes the header of a free block at mid and ends the block at mem there. */
    method Carve(mem: nat, mid: nat, ghost keep: set<Block>)
      requires mem in hdr && hdr[mem].next in hdr && mem < mid < hdr[mem].next <= HeapEnd()
      requires data.Length == HeapEnd() + HEADER_SIZE
      requires HeaderRoom(mem, keep) && HeaderRoom(mid, keep) && HeaderRoom(hdr[mem].next, keep)
      modifies this`hdr, data
      ensures hdr == CarveHeaders(old(hdr), Block(mem, old(hdr[mem].next), false), mid, HeapEnd())
      ensures PayloadKept(old(data[..]), data[..], keep)
    {
      ghost var d0 := data[..];
      WriteHeader(mid, Header(HEAP_MAGIC, false, hdr[mem].next, mem), keep);
      ghost var d1 := data[..];
      WriteHeader(mem, hdr[mem].(used := true, next := mid), keep);
      KeptTwice(d0, d1, data[..], keep);
      ghost var d2 := data[..];
      var next := hdr[mid].next;
      if next != HeapEnd() {
        WriteHeader(next, hdr[next].(prev := mid), keep);
        KeptTwice(d0, d2, data[..], keep);
      }
    }

    /** left->next = right->next, and that block's prev = left. */
    method LinkOver(left: nat, right: nat, ghost keep: set<Block>)
      requires left in hdr && right in hdr && hdr[right].next in hdr
      requires left < right < hdr[right].next && hdr[right].next + HEADER_SIZE <= data.Length
      requires HeaderRoom(left, keep) && HeaderRoom(hdr[right].next, keep)
      modifies this`hdr, data
      ensures var far := old(hdr[right].next);
              hdr == old(hdr)[left := old(hdr[left]).(next := far)][far := old(hdr[far]).(prev := left)]
      ensures PayloadKept(old(data[..]), data[..], keep)
    {
      WriteHeader(left, hdr[left].(next := hdr[right].next), keep);
      ghost var between := data[..];
      WriteHeader(hdr[right].next, hdr[hdr[right].next].(prev := left), keep);
      KeptTwice(old(data[..]), between, data[..], keep);
    }
  }

  lemma CarveFacts(hdr: Headers, bs: seq<Block>, i: nat, mid: nat, hi: nat)
    requires Chain(hdr, bs, 0, 0, hi) && i < |bs|
    requires bs[i].start + HEADER_SIZE < mid && mid + HEADER_SIZE < bs[i].end && mid % ALIGN_SIZE == 0
    ensures bs[i].start in hdr && bs[i].end in hdr && bs[i].end <= hi && hdr[bs[i].start].next == bs[i].end
    ensures Chain(CarveHeaders(hdr, bs[i], mid, hi), Split(bs, i, mid, true, false), 0, 0, hi)
    ensures Live(Split(bs, i, mid, true, false)) == Live(bs) - {bs[i]} + {Block(bs[i].start, mid, true)}
    ensures Sum(Split(bs, i, mid, true, false), true, 0) ==
            Sum(bs, true, 0) - Weight(bs[i], true, 0) + (mid - bs[i].start)
    ensures HeaderRoom(bs[i].start, Live(bs)) && HeaderRoom(bs[i].end, Live(bs))
    ensures HeaderRoom(mid, Live(bs) - {bs[i]} + {Block(bs[i].start, mid, true)})
  {
    ChainAt(hdr, bs, i, 0, 0, hi);
    CarveChain(hdr, bs, i, mid, hi);
    ChainTiles(hdr, bs, 0, 0, hi);
    SplitLive(bs, i, mid, true, 0, hi);
    SplitSum(bs, i, mid, true, false, true, 0);
    BoundaryRoom(bs, i, 0, hi);
    InnerRoom(bs, i, mid, 0, hi);
  }

  lemma MarkFacts(hdr: Headers, bs: seq<Block>, i: nat, used: bool, hi: nat)
    requires Chain(hdr, bs, 0, 0, hi) && i < |bs| && bs[i].used != used
    ensures bs[i].start in hdr && hdr[bs[i].start].next == bs[i].end && bs[i].end <= hi
    ensures hdr[bs[i].start].used == bs[i].used && hdr[bs[i].start].magic == HEAP_MAGIC
    ensures Chain(hdr[bs[i].start := hdr[bs[i].start].(magic := HEAP_MAGIC, used := used)], Mark(bs, i, used), 0, 0, hi)
    ensures Live(Mark(bs, i, used)) == if used then Live(bs) + {bs[i].(used := true)} else Live(bs) - {bs[i]}
    ensures Sum(Mark(bs, i, used), true, 0) == Sum(bs, true, 0) + (if used then 1 else -1) * (bs[i].end - bs[i].start)
    ensures HeaderRoom(bs[i].start, Live(bs))
  {
    ChainAt(hdr, bs, i, 0, 0, hi);
    MarkChain(hdr, bs, i, used, hi);
    ChainTiles(hdr, bs, 0, 0, hi);
    MarkLive(bs, i, used, 0, hi);
    MarkSum(bs, i, used, true, 0);
    BoundaryRoom(bs, i, 0, hi);
  }

  // How the lowest free block moves

  lemma LowestAfterFree(bs: seq<Block>, i: nat, hi: nat)
    requires Tiles(bs, 0, hi) && i < |bs| && bs[i].used
    ensures LowestFree(Mark(bs, i, false), hi) ==
            if bs[i].start < LowestFree(bs, hi) then bs[i].start else LowestFree(bs, hi)
  {
    AllOrdered(bs, 0, hi);
    var k := LowestFreeIndex(bs, hi);
    LowestFreeAt(Mark(bs, i, false), hi, if i < k then i else k);
  }

  lemma FreeFacts(hdr: Headers, bs: seq<Block>, i: nat, hi: nat)
    requires Chain(hdr, bs, 0, 0, hi) && i < |bs| && bs[i].used && FreePairs(bs) == {}
    ensures var s, cs := bs[i].start, Mark(bs, i, false);
            && s in hdr && hdr[s] == Header(HEAP_MAGIC, true, bs[i].end, hdr[s].prev)
            && s < bs[i].end <= hi
            && Chain(hdr[s := hdr[s].(used := false, magic := HEAP_MAGIC)], cs, 0, 0, hi)
            && FreePairs(cs) <= {i - 1, i} && Live(cs) == Live(bs) - {bs[i]}
            && LowestFree(cs, hi) == (if s < LowestFree(bs, hi) then s else LowestFree(bs, hi))
            && Sum(cs, true, 0) == Sum(bs, true, 0) - (bs[i].end - s)
            && HeaderRoom(s, Live(bs))
  {
    ChainAt(hdr, bs, i, 0, 0, hi);
    MarkFacts(hdr, bs, i, false, hi);
    MarkFreePairs(bs, i);
    ChainTiles(hdr, bs, 0, 0, hi);
    LowestAfterFree(bs, i, hi);
  }

  /** Taking all or the front of a free block: if it was the lowest one, the
      search for the next starts there; if not, the lowest one stays. */
  lemma LowestAfterTake(hdr: Headers, bs: seq<Block>, i: nat, cs: seq<Block>, hi: nat)
    requires Chain(hdr, bs, 0, 0, hi) && i < |bs| && !bs[i].used
    requires i <= |cs| && cs[..i] == bs[..i]
    ensures LowestFree(bs, hi) == bs[i].start ==> LowestFree(cs, hi) == LowestFree(cs[i..], hi)
    ensures LowestFree(bs, hi) != bs[i].start ==> LowestFree(cs, hi) == LowestFree(bs, hi)
  {
    ChainTiles(hdr, bs, 0, 0, hi);
    AllOrdered(bs, 0, hi);
    var k := LowestFreeIndex(bs, hi);
    assert forall j :: 0 <= j < i ==> cs[j] == cs[..i][j] == bs[..i][j] == bs[j];
    if k == i {
      LowestFreeSkip(cs, i, hi);
    } else {
      LowestFreeAt(cs, hi, k);
    }
  }

  /** What taking `size` bytes of block i does to headers and layout. */
  ghost predicate Taken(bs: seq<Block>, i: nat, size: nat, hi: nat, hdr': Headers, cs: seq<Block>)
    requires i < |bs| && size <= bs[i].end
  {
    && i < |cs| && cs[i].start == bs[i].start
    && Chain(hdr', cs, 0, 0, hi) && FreePairs(cs) == {}
    && Live(cs) == Live(bs) + {Placed(bs[i], size)}
    && LowestFree(cs, hi) == if LowestFree(bs, hi) == bs[i].start then LowestFree(cs[i..], hi) else LowestFree(bs, hi)
  }

  lemma TakenBySplit(hdr: Headers, bs: seq<Block>, i: nat, size: nat, hi: nat)
    requires Chain(hdr, bs, 0, 0, hi) && FreePairs(bs) == {} && i < |bs| && !bs[i].used
    requires bs[i].end - (bs[i].start + HEADER_SIZE) >= size + HEADER_SIZE + MIN_SIZE
    requires size % ALIGN_SIZE == 0 && MIN_SIZE <= size
    ensures var mid := bs[i].start + HEADER_SIZE + size;
            var cs := Split(bs, i, mid, true, false);
            && bs[i].start in hdr && bs[i].end in hdr && bs[i].end <= hi && hdr[bs[i].start].next == bs[i].end
            && Taken(bs, i, size, hi, CarveHeaders(hdr, bs[i], mid, hi), cs)
            && Sum(cs, true, 0) == Sum(bs, true, 0) + HEADER_SIZE + size
            && HeaderRoom(bs[i].start, Live(bs)) && HeaderRoom(bs[i].end, Live(bs)) && HeaderRoom(mid, Live(bs))
  {
    var mid := bs[i].start + HEADER_SIZE + size;
    ChainAt(hdr, bs, i, 0, 0, hi);
    CarveFacts(hdr, bs, i, mid, hi);
    assert Live(bs) - {bs[i]} == Live(bs);
    LowestAfterTake(hdr, bs, i, Split(bs, i, mid, true, false), hi);
    SplitFreePairs(bs, i, mid);
  }

  lemma TakenWhole(hdr: Headers, bs: seq<Block>, i: nat, size: nat, hi: nat)
    requires Chain(hdr, bs, 0, 0, hi) && FreePairs(bs) == {} && i < |bs| && !bs[i].used
    requires size <= bs[i].end - (bs[i].start + HEADER_SIZE) < size + HEADER_SIZE + MIN_SIZE
    ensures var s, cs := bs[i].start, Mark(bs, i, true);
            && s in hdr && hdr[s].next == bs[i].end <= hi
            && Taken(bs, i, size, hi, hdr[s := hdr[s].(magic := HEAP_MAGIC, used := true)], cs)
            && Sum(cs, true, 0) == Sum(bs, true, 0) + (bs[i].end - s)
            && HeaderRoom(s, Live(bs))
  {
    MarkFacts(hdr, bs, i, true, hi);
    LowestAfterTake(hdr, bs, i, Mark(bs, i, true), hi);
    MarkFreePairs(bs, i);
  }

  lemma ShrinkFacts(hdr: Headers, bs: seq<Block>, i: nat, mid: nat, hi: nat)
    requires Chain(hdr, bs, 0, 0, hi) && FreePairs(bs) == {} && i < |bs| && bs[i].used
    requires bs[i].start + HEADER_SIZE < mid && mid + HEADER_SIZE < bs[i].end && mid % ALIGN_SIZE == 0
    ensures var b, cs := bs[i], Split(bs, i, mid, true, false);
            var live := Live(bs) - {b} + {Block(b.start, mid, true)};
            && b.start in hdr && b.end in hdr && b.end <= hi && hdr[b.start].next == b.end
            && Chain(CarveHeaders(hdr, b, mid, hi), cs, 0, 0, hi)
            && FreePairs(cs) <= {i, i + 1} && Live(cs) == live
            && i + 1 < |cs| && cs[i + 1] == Block(mid, b.end, false)
            && LowestFree(cs, hi) == (if mid < LowestFree(bs, hi) then mid else LowestFree(bs, hi))
            && Sum(cs, true, 0) == Sum(bs, true, 0) - (b.end - mid)
            && HeaderRoom(b.start, live) && HeaderRoom(b.end, live) && HeaderRoom(mid, live)
  {
    CarveFacts(hdr, bs, i, mid, hi);
    SplitFreePairs(bs, i, mid);
    ChainTiles(hdr, bs, 0, 0, hi);
    LowestAfterShrink(bs, i, mid, hi);
  }

  lemma LowestAfterShrink(bs: seq<Block>, i: nat, mid: nat, hi: nat)
    requires Tiles(bs, 0, hi) && i < |bs| && bs[i].used && bs[i].start < mid < bs[i].end
    ensures LowestFree(Split(bs, i, mid, true, false), hi) ==
            if mid < LowestFree(bs, hi) then mid else LowestFree(bs, hi)
  {
    AllOrdered(bs, 0, hi);
    var k := LowestFreeIndex(bs, hi);
    LowestFreeAt(Split(bs, i, mid, true, false), hi, if i < k then i + 1 else k);
  }

  lemma {:induction false} LowestFreeSkip(bs: seq<Block>, i: nat, hi: nat)
    requires i <= |bs| && forall k :: 0 <= k < i ==> bs[k].used
    ensures LowestFree(bs, hi) == LowestFree(bs[i..], hi)
  {
    if i > 0 {
      LowestFreeSkip(bs[1..], i - 1, hi);
      assert bs[1..][i - 1..] == bs[i..];
    } else {
      assert bs[i..] == bs;
    }
  }

  /** The block an allocation makes lies apart from every live one. */
  lemma MoveFacts(hdr: Headers, bs: seq<Block>, b: Block, size: nat, memSize: nat, hi: nat)
    requires Chain(hdr, bs, 0, 0, hi) && b in Live(bs)
    requires FirstFit(bs, size, memSize) < |bs|
    ensures var f := Placed(bs[FirstFit(bs, size, memSize)], size);
            && ApartFromAll(f, Live(bs)) && f !in Live(bs)
            && f.start + HEADER_SIZE + size <= f.end <= hi && b.end <= hi
            && b.start + HEADER_SIZE < b.end
  {
    ChainTiles(hdr, bs, 0, 0, hi);
    AllOrdered(bs, 0, hi);
    var i := FirstFit(bs, size, memSize);
    forall c | c in Live(bs)
      ensures c.end <= bs[i].start || bs[i].end <= c.start
    {
      var k :| 0 <= k < |bs| && bs[k] == c;
    }
  }

  ghost predicate ApartFromAll(f: Block, bs: set<Block>) {
    forall c :: c in bs ==> c.end <= f.start || f.end <= c.start
  }

  lemma CopyKeeps(d0: seq<bv8>, d1: seq<bv8>, d2: seq<bv8>, live: set<Block>, b: Block, f: Block, n: nat)
    requires PayloadKept(d0, d1, live) && b in live && ApartFromAll(f, live)
    requires b.start + HEADER_SIZE + n <= b.end <= |d1| && f.start + HEADER_SIZE + n <= f.end <= |d1|
    requires d2 == Copied(d1, f.start + HEADER_SIZE, b.start + HEADER_SIZE, n)
    ensures PayloadKept(d0, d2, live)
    ensures Bytes(d2, f.start + HEADER_SIZE, n) == Bytes(d0, b.start + HEADER_SIZE, n)
  {
    var dst, src := f.start + HEADER_SIZE, b.start + HEADER_SIZE;
    forall c, k | c in live && c.start + HEADER_SIZE <= k < c.end && k < |d0| ensures d2[k] == d0[k] {
      CopiedAt(d1, dst, src, n, k);
    }
    var moved, was := d2[dst..dst + n], d0[src..src + n];
    forall k | 0 <= k < n ensures moved[k] == was[k] {
      CopiedAt(d1, dst, src, n, dst + k);
    }
  }

  lemma ShrunkPrefix(d0: seq<bv8>, d1: seq<bv8>, live: set<Block>, c: Block, n: nat)
    requires PayloadKept(d0, d1, live) && c in live && c.start + HEADER_SIZE + n == c.end
    ensures Bytes(d1, c.start + HEADER_SIZE, n) == Bytes(d0, c.start + HEADER_SIZE, n)
  {
  }

  lemma FreeKeeps(d0: seq<bv8>, d2: seq<bv8>, d3: seq<bv8>, live: set<Block>, b: Block, f: Block, n: nat)
    requires PayloadKept(d0, d2, live) && PayloadKept(d2, d3, live + {f} - {b}) && f != b
    requires Bytes(d2, f.start + HEADER_SIZE, n) == Bytes(d0, b.start + HEADER_SIZE, n)
    requires f.start + HEADER_SIZE + n <= f.end <= |d0|
    ensures PayloadKept(d0, d3, live - {b})
    ensures Bytes(d3, f.start + HEADER_SIZE, n) == Bytes(d0, b.start + HEADER_SIZE, n)
  {
    var dst := f.start + HEADER_SIZE;
    assert f in live + {f} - {b};
    assert d3[dst..dst + n] == d2[dst..dst + n];
  }

  lemma MovedAside(before: seq<bv8>, after: seq<bv8>, bs: seq<Block>, live: set<Block>, b: Block, newsize: nat,
                   memSize: nat,
                   p: Pointer)
    requires MoveDone(bs, b, newsize, memSize, p, live) && PayloadKept(before, after, Live(bs) - {b})
    requires p.Null? ==> after == before
    requires newsize != b.end - b.start - HEADER_SIZE <= newsize + HEADER_SIZE + MIN_SIZE
    ensures ResizeDone(bs, b, newsize, memSize, p, live) && PayloadKept(before, after, Live(bs) * live)
  {
    if p.At? {
      KeptFewer(before, after, Live(bs) - {b}, Live(bs) * live);
    }
  }

  lemma SizeOfLive(hdr: Headers, bs: seq<Block>, b: Block, hi: nat)
    requires Chain(hdr, bs, 0, 0, hi) && b in Live(bs)
    ensures b.start in hdr && hdr[b.start].next == b.end && b.start + HEADER_SIZE < b.end
  {
    var i :| 0 <= i < |bs| && bs[i] == b;
    ChainAt(hdr, bs, i, 0, 0, hi);
  }

  lemma KeptFewer(a: seq<bv8>, b: seq<bv8>, bs: set<Block>, cs: set<Block>)
    requires PayloadKept(a, b, bs) && cs <= bs
    ensures PayloadKept(a, b, cs)
  {
  }

  lemma KeptTwice(a: seq<bv8>, b: seq<bv8>, c: seq<bv8>, bs: set<Block>)
    requires PayloadKept(a, b, bs) && PayloadKept(b, c, bs)
    ensures PayloadKept(a, c, bs)
  {
  }

  /** Where the links of block i lead. */
  lemma RightNeighbour(hdr: Headers, bs: seq<Block>, i: nat, hi: nat)
    requires Chain(hdr, bs, 0, 0, hi) && i < |bs|
    ensures bs[i].start in hdr && hdr[bs[i].start].next in hdr && bs[i].start < hdr[bs[i].start].next <= hi
    ensures hi in hdr && hdr[hi].used && hdr[bs[i].start].used == bs[i].used
    ensures var n := hdr[bs[i].start].next;
            if i + 1 < |bs| then n == bs[i + 1].start != hi && hdr[n].used == bs[i + 1].used else n == hi
  {
    ChainAt(hdr, bs, i, 0, 0, hi);
    EndOrMore(hdr, bs[i + 1..], bs[i].start, bs[i].end, hi);
    ChainTiles(hdr, bs[i + 1..], bs[i].start, bs[i].end, hi);
    if i + 1 < |bs| {
      assert bs[i + 1..][0] == bs[i + 1];
      ChainAt(hdr, bs, i + 1, 0, 0, hi);
    }
  }

  lemma LeftNeighbour(hdr: Headers, bs: seq<Block>, i: nat, hi: nat)
    requires Chain(hdr, bs, 0, 0, hi) && i < |bs|
    ensures bs[i].start in hdr && hdr[bs[i].start].prev in hdr
    ensures var q := hdr[bs[i].start].prev;
            if i > 0 then q == bs[i - 1].start < bs[i].start && hdr[q].used == bs[i - 1].used else q == bs[i].start
  {
    ChainAt(hdr, bs, i, 0, 0, hi);
    if i > 0 {
      ChainAt(hdr, bs, i - 1, 0, 0, hi);
      assert bs[i - 1 + 1..][0] == bs[i];
    }
  }

  lemma Neighbours(hdr: Headers, bs: seq<Block>, i: nat, hi: nat)
    requires Chain(hdr, bs, 0, 0, hi) && i < |bs|
    ensures bs[i].start in hdr && hdr[bs[i].start].next in hdr && hdr[bs[i].start].prev in hdr
    ensures bs[i].start < hdr[bs[i].start].next <= hi && hdr[bs[i].start].used == bs[i].used
    ensures hi in hdr && hdr[hi].used
    ensures var n := hdr[bs[i].start].next;
            if i + 1 < |bs| then n == bs[i + 1].start != hi && hdr[n].used == bs[i + 1].used else n == hi
    ensures var q := hdr[bs[i].start].prev;
            if i > 0 then q == bs[i - 1].start < bs[i].start && hdr[q].used == bs[i - 1].used else q == bs[i].start
  {
    RightNeighbour(hdr, bs, i, hi);
    LeftNeighbour(hdr, bs, i, hi);
  }

  lemma JoinFacts(hdr: Headers, bs: seq<Block>, i: nat, hi: nat)
    requires Chain(hdr, bs, 0, 0, hi) && i + 1 < |bs| && !bs[i].used && !bs[i + 1].used
    ensures Live(Join(bs, i)) == Live(bs)
    ensures bs[i].start in hdr && bs[i + 1].end in hdr
    ensures Chain(JoinHeaders(hdr, bs[i], bs[i + 1]), Join(bs, i), 0, 0, hi)
    ensures Sum(Join(bs, i), true, 0) == Sum(bs, true, 0)
    ensures LowestFree(Join(bs, i), hi) == if LowestFree(bs, hi) == bs[i + 1].start then bs[i].start
            else LowestFree(bs, hi)
    ensures bs[i + 1].start in hdr && hdr[bs[i + 1].start].next == bs[i + 1].end
    ensures bs[i].start < bs[i + 1].start < bs[i + 1].end <= hi
    ensures HeaderRoom(bs[i].start, Live(bs)) && HeaderRoom(bs[i + 1].end, Live(bs))
  {
    ChainTiles(hdr, bs, 0, 0, hi);
    AllOrdered(bs, 0, hi);
    BoundaryRoom(bs, i, 0, hi);
    BoundaryRoom(bs, i + 1, 0, hi);
    JoinLive(bs, i);
    JoinChain(hdr, bs, i, hi);
    JoinSum(bs, i, true, 0);
    JoinLowest(bs, i, hi);
  }

  lemma JoinLowest(bs: seq<Block>, i: nat, hi: nat)
    requires Tiles(bs, 0, hi) && i + 1 < |bs| && !bs[i].used && !bs[i + 1].used
    ensures LowestFree(bs, hi) < bs[i + 1].start
    ensures LowestFree(Join(bs, i), hi) == LowestFree(bs, hi)
  {
    AllOrdered(bs, 0, hi);
    var k := LowestFreeIndex(bs, hi);
    LowestFreeAt(Join(bs, i), hi, k);
  }

  // Runs

  ghost predicate ValidLayout(bs: seq<Block>, hi: nat) {
    Coalesced(bs, 0, hi)
  }

  /** A block that was allocated and then freed leaves no trace: not in the
      layout, not in the lowest free block, not in the byte count. */
  lemma AllocThenFree(bs: seq<Block>, cs: seq<Block>, ds: seq<Block>, f: Block, hi: nat)
    requires ValidLayout(bs, hi) && ValidLayout(cs, hi) && ValidLayout(ds, hi)
    requires f !in Live(bs) && Live(cs) == Live(bs) + {f} && Live(ds) == Live(cs) - {f}
    ensures ds == bs && LowestFree(ds, hi) == LowestFree(bs, hi) && Sum(ds, true, 0) == Sum(bs, true, 0)
  {
    assert Live(ds) == Live(bs);
    CoalescedIsCanonical(ds, bs, 0, hi);
  }

  lemma ValidIsCoalesced(hdr: Headers, bs: seq<Block>, hi: nat)
    requires Chain(hdr, bs, 0, 0, hi) && FreePairs(bs) == {} && hi > 0
    ensures ValidLayout(bs, hi)
  {
    ChainTiles(hdr, bs, 0, 0, hi);
  }

  /** Conservation: used_mem and the free blocks fill the heap up to the sentinel. */
  lemma Conservation(h: SmallHeap)
    requires h.Valid()
    ensures h.usedMem + Sum(h.blocks, false, 0) == h.HeapEnd()
  {
    ValidIsCoalesced(h.hdr, h.blocks, h.HeapEnd());
    ExtentsAddUp(h.blocks, 0, h.HeapEnd());
  }

  lemma PlacedIsNew(bs: seq<Block>, i: nat, size: nat, hi: nat)
    requires ValidLayout(bs, hi) && i < |bs| && !bs[i].used
    ensures Placed(bs[i], size) !in Live(bs)
  {
    AllOrdered(bs, 0, hi);
  }

  /** rt_malloc followed by rt_free of what it returned. */
  method MallocFree(h: SmallHeap, request: nat)
    requires h.Valid() && request <= MAX_SIZE - (ALIGN_SIZE - 1)
    modifies h, h.data
    ensures h.Valid() && h.blocks == old(h.blocks) && h.lfree == old(h.lfree) && h.usedMem == old(h.usedMem)
    ensures PayloadKept(old(h.data[..]), h.data[..], Live(h.blocks))
  {
    ghost var bs, d0, hi := h.blocks, h.data[..], h.HeapEnd();
    ghost var i := FirstFit(bs, Requested(request), h.memSize);
    ValidIsCoalesced(h.hdr, bs, hi);
    var p := h.Malloc(request);
    ghost var cs, d1 := h.blocks, h.data[..];
    ValidIsCoalesced(h.hdr, cs, hi);
    if p != Null {
      ghost var f := Placed(bs[i], Requested(request));
      PlacedIsNew(bs, i, Requested(request), hi);
      h.Free(p, f);
      ValidIsCoalesced(h.hdr, h.blocks, hi);
      AllocThenFree(bs, cs, h.blocks, f, hi);
      KeptTwice(d0, d1, h.data[..], Live(bs));
    }
  }

  /** What a user of the heap may ask for next. */
  datatype Request = Ask(size: nat) | Give(p: int) | Alter(p: int, size: nat)

  lemma Owner(bs: seq<Block>, p: int) returns (b: Block)
    requires p in Payloads(bs, HEADER_SIZE)
    ensures b in Live(bs) && p == b.start + HEADER_SIZE
  {
    b :| b in Live(bs) && b.start + HEADER_SIZE == p;
  }

  /** What an allocation does to the payloads. */
  lemma MallocPayloads(bs: seq<Block>, cs: seq<Block>, request: nat, memSize: nat, p: Pointer, hi: nat)
    requires Tiles(bs, 0, hi) && MallocDone(bs, request, memSize, p, Live(cs))
    ensures Payloads(cs, HEADER_SIZE) == Payloads(bs, HEADER_SIZE) + if p.Null? then {} else {p.offset}
  {
    var i := FirstFit(bs, Requested(request), memSize);
    if p.At? {
      PayloadsSwapped(bs, cs, {}, {Placed(bs[i], Requested(request))}, HEADER_SIZE, 0, hi);
    }
  }

  /** What a reallocation does to the payloads. */
  lemma OneGone(bs: seq<Block>, cs: seq<Block>, b: Block, hi: nat)
    requires Tiles(bs, 0, hi) && b in Live(bs) && Live(cs) == Live(bs) - {b}
    ensures Payloads(cs, HEADER_SIZE) == Payloads(bs, HEADER_SIZE) - {b.start + HEADER_SIZE}
  {
    PayloadsSwapped(bs, cs, {b}, {}, HEADER_SIZE, 0, hi);
    assert Offsets({b}, HEADER_SIZE) == {b.start + HEADER_SIZE} && Offsets({}, HEADER_SIZE) == {};
  }

  lemma OwnerInHeap(hdr: Headers, bs: seq<Block>, b: Block, hi: nat)
    requires Chain(hdr, bs, 0, 0, hi) && b in Live(bs)
    ensures 0 <= b.start + HEADER_SIZE < hi
  {
    ChainTiles(hdr, bs, 0, 0, hi);
    AllOrdered(bs, 0, hi);
    var k :| 0 <= k < |bs| && bs[k] == b;
    ChainAt(hdr, bs, k, 0, 0, hi);
  }

  lemma ReallocPayloads(hdr: Headers, bs: seq<Block>, cs: seq<Block>, b: Block, request: nat, memSize: nat,
                        p: Pointer, hi: nat)
    requires Chain(hdr, bs, 0, 0, hi) && Tiles(bs, 0, hi) && b in Live(bs) && hi == memSize + HEADER_SIZE
    requires ReallocDone(bs, b, At(b.start + HEADER_SIZE), request, memSize, p, Live(cs))
    ensures var rest := Payloads(bs, HEADER_SIZE) - {b.start + HEADER_SIZE};
            Payloads(cs, HEADER_SIZE) ==
            if p.At? then rest + {p.offset} else if AlignUp(request) == 0 then rest else Payloads(bs, HEADER_SIZE)
  {
    var n := AlignUp(request);
    OwnerInHeap(hdr, bs, b, hi);
    if n > memSize {
    } else if n == 0 {
      OneGone(bs, cs, b, hi);
    } else {
      ResizePayloads(hdr, bs, cs, b, n, memSize, p, hi);
    }
  }

  lemma ResizePayloads(hdr: Headers, bs: seq<Block>, cs: seq<Block>, b: Block, n: nat, memSize: nat, p: Pointer,
                       hi: nat)
    requires Chain(hdr, bs, 0, 0, hi) && Tiles(bs, 0, hi) && b in Live(bs)
    requires ResizeDone(bs, b, n, memSize, p, Live(cs))
    ensures Payloads(cs, HEADER_SIZE) ==
            if p.At? then Payloads(bs, HEADER_SIZE) - {b.start + HEADER_SIZE} + {p.offset}
                else Payloads(bs, HEADER_SIZE)
  {
    var size, cut := b.end - b.start - HEADER_SIZE, Block(b.start, b.start + HEADER_SIZE + n, true);
    assert b.start + HEADER_SIZE in Payloads(bs, HEADER_SIZE);
    if size == n {
    } else if n + HEADER_SIZE + MIN_SIZE < size {
      OneSwapped(bs, cs, b, cut, hi);
    } else {
      MovePayloads(hdr, bs, cs, b, n, memSize, p, hi);
    }
  }

  lemma MovePayloads(hdr: Headers, bs: seq<Block>, cs: seq<Block>, b: Block, n: nat, memSize: nat, p: Pointer, hi: nat)
    requires Chain(hdr, bs, 0, 0, hi) && Tiles(bs, 0, hi) && b in Live(bs) && MoveDone(bs, b, n, memSize, p, Live(cs))
    ensures Payloads(cs, HEADER_SIZE) ==
            if p.At? then Payloads(bs, HEADER_SIZE) - {b.start + HEADER_SIZE} + {p.offset}
                else Payloads(bs, HEADER_SIZE)
  {
    if p.At? {
      MoveFacts(hdr, bs, b, Requested(n), memSize, hi);
      var f := Placed(bs[FirstFit(bs, Requested(n), memSize)], Requested(n));
      assert Live(bs) + {f} - {b} == Live(bs) - {b} + {f};
      OneSwapped(bs, cs, b, f, hi);
    }
  }

  lemma OneSwapped(bs: seq<Block>, cs: seq<Block>, b: Block, f: Block, hi: nat)
    requires Tiles(bs, 0, hi) && b in Live(bs) && Live(cs) == Live(bs) - {b} + {f}
    ensures Payloads(cs, HEADER_SIZE) == Payloads(bs, HEADER_SIZE) - {b.start + HEADER_SIZE} + {f.start + HEADER_SIZE}
  {
    PayloadsSwapped(bs, cs, {b}, {f}, HEADER_SIZE, 0, hi);
    assert Offsets({b}, HEADER_SIZE) == {b.start + HEADER_SIZE} && Offsets({f}, HEADER_SIZE) == {f.start + HEADER_SIZE};
  }

  /** The sizes a 32-bit request may have without wrapping when it is aligned. */
  predicate Askable(r: Request) {
    r.Give? || r.size <= MAX_SIZE - (ALIGN_SIZE - 1)
  }

  /** Any requests in any order from a new heap on, each about a payload that is held: what is
      held is exactly what is in use, and nothing of the heap is lost. */
  method Run(memSize: nat, requests: seq<Request>) returns (h: SmallHeap, held: set<int>)
    requires MIN_SIZE <= memSize && memSize % ALIGN_SIZE == 0 && forall r :: r in requests ==> Askable(r)
    ensures h.Valid() && held == Payloads(h.blocks, HEADER_SIZE)
    ensures h.usedMem + Sum(h.blocks, false, 0) == memSize + HEADER_SIZE
  {
    h := new SmallHeap(memSize);
    held := {};
    for i := 0 to |requests|
      invariant h.Valid() && fresh(h) && fresh(h.data) && h.memSize == memSize
                && held == Payloads(h.blocks, HEADER_SIZE)
    {
      held := Serve(h, requests[i], held);
    }
    Conservation(h);
  }

  method Serve(h: SmallHeap, r: Request, held: set<int>) returns (after: set<int>)
    requires h.Valid() && Askable(r) && held == Payloads(h.blocks, HEADER_SIZE)
    modifies h, h.data
    ensures h.Valid() && after == Payloads(h.blocks, HEADER_SIZE)
  {
    ghost var bs, hdr, hi := h.blocks, h.hdr, h.HeapEnd();
    ValidIsCoalesced(hdr, bs, hi);
    after := held;
    match r {
      case Ask(size) =>
        var p := h.Malloc(size);
        MallocPayloads(bs, h.blocks, size, h.memSize, p, hi);
        after := if p.At? then held + {p.offset} else held;
      case Give(p) =>
        if p in held {
          ghost var b := Owner(bs, p);
          h.Free(At(p), b);
          PayloadsSwapped(bs, h.blocks, {b}, {}, HEADER_SIZE, 0, hi);
          after := held - {p};
        }
      case Alter(p, size) =>
        if p in held {
          ghost var b := Owner(bs, p);
          var q := h.Realloc(At(p), size, b);
          ReallocPayloads(hdr, bs, h.blocks, b, size, h.memSize, q, hi);
          after := if q.At? then held - {p} + {q.offset} else if AlignUp(size) == 0 then held - {p} else held;
        }
    }
  }

  /** Whatever was requested before, heaps of one size with the same blocks in use are in the same state. */
  lemma SameLiveSameHeap(g: SmallHeap, h: SmallHeap)
    requires g.Valid() && h.Valid() && g.memSize == h.memSize && Live(g.blocks) == Live(h.blocks)
    ensures g.blocks == h.blocks && g.lfree == h.lfree && g.usedMem == h.usedMem
  {
    ValidIsCoalesced(g.hdr, g.blocks, g.HeapEnd());
    ValidIsCoalesced(h.hdr, h.blocks, h.HeapEnd());
    CoalescedIsCanonical(g.blocks, h.blocks, 0, g.HeapEnd());
  }

  /** So a new heap refuses a request for all it has: its one block ends at the sentinel. */
  method WholeHeapRefused(memSize: nat) returns (h: SmallHeap, p: Pointer)
    requires MIN_SIZE <= memSize <= MAX_SIZE - (ALIGN_SIZE - 1) && memSize % ALIGN_SIZE == 0
    ensures h.Valid() && p == Null && h.blocks == [Block(0, memSize + HEADER_SIZE, false)]
  {
    h := new SmallHeap(memSize);
    p := h.Malloc(memSize);
  }

  /** Freeing every live block, in any order, gives back the initial heap. */
  method FreeAll(h: SmallHeap, order: seq<Block>)
    requires h.Valid()
    requires (forall i, j :: 0 <= i < j < |order| ==> order[i] != order[j])
    requires Live(h.blocks) == set b | b in order
    modifies h, h.data
    ensures h.Valid() && h.blocks == [Block(0, h.HeapEnd(), false)] && h.lfree == 0 && h.usedMem == 0
  {
    var n := 0;
    while n < |order|
      invariant n <= |order| && h.Valid()
      invariant Live(h.blocks) == set b | b in order[n..]
    {
      assert order[n] in order[n..];
      h.Free(At(order[n].start + HEADER_SIZE), order[n]);
      assert order[n..] == [order[n]] + order[n + 1..];
      n := n + 1;
    }
    ValidIsCoalesced(h.hdr, h.blocks, h.HeapEnd());
    NothingLive(h.blocks, 0, h.HeapEnd());
    SumPair(h.blocks[0], h.blocks[0], true, 0);
  }
}
