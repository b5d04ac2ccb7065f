/** The memheap allocator (memheap.c): a circular list of items tiling the pool
    and, through the free ones, a second circular list. Addresses are byte
    offsets from the start of the pool; an item's block links and its free-list
    links are kept in two maps. */
module MemHeap {
  import opened Arithmetic
  import opened MemRoutines
  import opened RtConfig
  import opened RtList
  import opened Sequences
  import opened Tiling

  const ITEM_SIZE: nat := 24
  const MIN_ALLOC: nat := 12
  /** The address of the free list's own header, which lies outside the pool. */
  const FREE_HEADER: int := -1
  const NULL_LINK: int := -2

  datatype Item = Item(used: bool, next: nat, prev: nat)

  type Items = map<int, Item>

  datatype Pointer = Null | At(offset: int)

  /** The items from p on spell out the layout bs and end in the tail item, which
      is always used and leads back to the start. */
  ghost predicate Chain(items: Items, bs: seq<Block>, prev: nat, p: nat, tail: nat) {
    && p in items && items[p].prev == prev
    && if bs == [] then p == tail && items[p].used && items[p].next == 0
       else
         && items[p] == Item(bs[0].used, bs[0].end, prev)
         && bs[0].start == p && p + ITEM_SIZE <= bs[0].end
         && Chain(items, bs[1..], p, bs[0].end, tail)
  }

  lemma {:induction false} ChainTiles(items: Items, bs: seq<Block>, prev: nat, p: nat, tail: nat)
    requires Chain(items, bs, prev, p, tail)
    ensures bs != [] ==> Tiles(bs, p, tail)
    ensures bs == [] ==> p == tail
    ensures tail in items && items[tail].used && items[tail].next == 0
  {
    if bs != [] {
      ChainTiles(items, bs[1..], p, bs[0].end, tail);
      assert bs == [bs[0]] + bs[1..];
    }
  }

  lemma EndOrMore(items: Items, bs: seq<Block>, prev: nat, p: nat, tail: nat)
    requires Chain(items, bs, prev, p, tail)
    ensures bs == [] <==> p == tail
    ensures tail in items && items[tail].used && items[tail].next == 0
    ensures p <= tail
  {
    ChainTiles(items, bs, prev, p, tail);
    if bs != [] {
      AllOrdered(bs, p, tail);
    }
  }

  /** A chain survives writes below it, and a new predecessor once its first item
      names that one. */
  lemma {:induction false} ChainRelink(items: Items, items': Items, bs: seq<Block>, prev: nat, prev': nat, p: nat,
                                       tail: nat)
    requires Chain(items, bs, prev, p, tail)
    requires p in items' && items'[p] == items[p].(prev := prev')
    requires forall q :: q > p && q in items ==> q in items' && items'[q] == items[q]
    ensures Chain(items', bs, prev', p, tail)
  {
    if bs != [] {
      ChainRelink(items, items', bs[1..], p, p, bs[0].end, tail);
    }
  }

  function PrevOf(bs: seq<Block>, i: nat, prev: nat): nat
    requires i <= |bs|
  {
    if i == 0 then prev else bs[i - 1].start
  }

  lemma {:induction false} ChainSuffix(items: Items, bs: seq<Block>, i: nat, prev: nat, p: nat, tail: nat)
    requires Chain(items, bs, prev, p, tail) && i < |bs|
    ensures Chain(items, bs[i..], PrevOf(bs, i, prev), bs[i].start, tail)
  {
    if i > 0 {
      ChainSuffix(items, bs[1..], i - 1, p, bs[0].end, tail);
      assert bs[1..][i - 1..] == bs[i..];
    }
  }

  /** What the chain says at block i. */
  lemma ChainAt(items: Items, bs: seq<Block>, i: nat, prev: nat, p: nat, tail: nat)
    requires Chain(items, bs, prev, p, tail) && i < |bs|
    ensures var b := bs[i];
            && b.start in items && items[b.start] == Item(b.used, b.end, PrevOf(bs, i, prev))
            && b.start + ITEM_SIZE <= b.end <= tail && b.end in items
            && Chain(items, bs[i + 1..], b.start, b.end, tail)
            && (i + 1 == |bs| <==> b.end == tail)
            && items[b.end].prev == b.start
            && tail in items && items[tail].used && items[tail].next == 0
            && (i + 1 < |bs| ==> bs[i + 1].start == b.end && items[b.end].used == bs[i + 1].used)
  {
    ChainSuffix(items, bs, i, prev, p, tail);
    assert bs[i..][1..] == bs[i + 1..];
    EndOrMore(items, bs[i + 1..], bs[i].start, bs[i].end, tail);
  }

  /** Writes at or above block i leave the blocks before it chained to what the
      items now spell from there on. */
  lemma {:induction false} ChainPrefix(items: Items, items': Items, bs: seq<Block>, i: nat, rest: seq<Block>,
                                       prev: nat, p: nat, tail: nat)
    requires Chain(items, bs, prev, p, tail) && i < |bs|
    requires forall q :: q < bs[i].start && q in items ==> q in items' && items'[q] == items[q]
    requires Chain(items', rest, PrevOf(bs, i, prev), bs[i].start, tail)
    ensures Chain(items', bs[..i] + rest, prev, p, tail)
  {
    if i == 0 {
      assert bs[..i] + rest == rest;
    } else {
      ChainTiles(items, bs, prev, p, tail);
      Ordered(bs, p, tail, 0, i);
      ChainPrefix(items, items', bs[1..], i - 1, rest, p, bs[0].end, tail);
      assert (bs[..i] + rest)[1..] == bs[1..][..i - 1] + rest;
    }
  }

  lemma ChainCons(items: Items, b: Block, rest: seq<Block>, prev: nat, tail: nat)
    requires b.start in items && items[b.start] == Item(b.used, b.end, prev) && b.start + ITEM_SIZE <= b.end
    requires Chain(items, rest, b.start, b.end, tail)
    ensures Chain(items, [b] + rest, prev, b.start, tail)
  {
    assert ([b] + rest)[1..] == rest;
  }

  // The three ways the block list is edited

  /** A free item at mid cuts block b in two. */
  ghost function CarveItems(items: Items, b: Block, mid: nat): Items
    requires b.start in items && b.end in items && b.start != mid
  {
    var m := items[mid := Item(false, b.end, b.start)];
    var m' := m[b.end := m[b.end].(prev := mid)];
    m'[b.start := m'[b.start].(next := mid)]
  }

  /** Block l takes over the extent of its right neighbour r. */
  ghost function JoinItems(items: Items, l: Block, r: Block): Items
    requires l.start in items && r.end in items
  {
    var m := items[r.end := items[r.end].(prev := l.start)];
    m[l.start := m[l.start].(next := r.end)]
  }

  function Joined(bs: seq<Block>, i: nat): seq<Block>
    requires i + 1 < |bs|
  {
    bs[..i] + [Block(bs[i].start, bs[i + 1].end, bs[i].used)] + bs[i + 2..]
  }

  lemma CarveSuffix(items: Items, b: Block, rest: seq<Block>, prev: nat, mid: nat, tail: nat)
    requires b.start in items && items[b.start] == Item(b.used, b.end, prev) && b.end in items
    requires Chain(items, rest, b.start, b.end, tail)
    requires b.start + ITEM_SIZE <= mid && mid + ITEM_SIZE <= b.end
    ensures Chain(CarveItems(items, b, mid), [Block(b.start, mid, b.used)] + ([Block(mid, b.end, false)] + rest),
            prev, b.start, tail)
  {
    var items' := CarveItems(items, b, mid);
    ChainRelink(items, items', rest, b.start, mid, b.end, tail);
    ChainCons(items', Block(mid, b.end, false), rest, b.start, tail);
    ChainCons(items', Block(b.start, mid, b.used), [Block(mid, b.end, false)] + rest, prev, tail);
  }

  lemma CarveChain(items: Items, bs: seq<Block>, i: nat, mid: nat, tail: nat)
    requires Chain(items, bs, tail, 0, tail) && i < |bs|
    requires bs[i].start + ITEM_SIZE <= mid && mid + ITEM_SIZE <= bs[i].end
    ensures bs[i].start in items && bs[i].end in items
    ensures Chain(CarveItems(items, bs[i], mid), Split(bs, i, mid, bs[i].used, false), tail, 0, tail)
  {
    ChainAt(items, bs, i, tail, 0, tail);
    var b, rest := bs[i], bs[i + 1..];
    CarveSuffix(items, b, rest, PrevOf(bs, i, tail), mid, tail);
    var l, r := Block(b.start, mid, b.used), Block(mid, b.end, false);
    ChainPrefix(items, CarveItems(items, b, mid), bs, i, [l] + ([r] + rest), tail, 0, tail);
    SplitParts(bs, i, mid, b.used);
  }

  lemma SplitParts(bs: seq<Block>, i: nat, mid: nat, used: bool)
    requires i < |bs|
    ensures bs[..i] + ([Block(bs[i].start, mid, used)] + ([Block(mid, bs[i].end, false)] + bs[i + 1..])) ==
            Split(bs, i, mid, used, false)
  {
  }

  lemma JoinChain(items: Items, bs: seq<Block>, i: nat, tail: nat)
    requires Chain(items, bs, tail, 0, tail) && i + 1 < |bs|
    ensures bs[i].start in items && bs[i + 1].end in items
    ensures Chain(JoinItems(items, bs[i], bs[i + 1]), Joined(bs, i), tail, 0, tail)
    ensures !bs[i].used ==> Joined(bs, i) == Join(bs, i)
  {
    ChainAt(items, bs, i, tail, 0, tail);
    ChainAt(items, bs, i + 1, tail, 0, tail);
    var l, r, rest := bs[i], bs[i + 1], bs[i + 2..];
    var items' := JoinItems(items, l, r);
    ChainRelink(items, items', rest, r.start, l.start, r.end, tail);
    var m := Block(l.start, r.end, l.used);
    ChainCons(items', m, rest, PrevOf(bs, i, tail), tail);
    ChainPrefix(items, items', bs, i, [m] + rest, tail, 0, tail);
    assert bs[..i] + ([m] + rest) == Joined(bs, i);
  }

  lemma MarkChain(items: Items, bs: seq<Block>, i: nat, used: bool, tail: nat)
    requires Chain(items, bs, tail, 0, tail) && i < |bs|
    ensures bs[i].start in items
    ensures Chain(items[bs[i].start := items[bs[i].start].(used := used)], Mark(bs, i, used), tail, 0, tail)
  {
    ChainAt(items, bs, i, tail, 0, tail);
    var b, rest := bs[i], bs[i + 1..];
    var items' := items[b.start := items[b.start].(used := used)];
    ChainRelink(items, items', rest, b.start, b.start, b.end, tail);
    var m := b.(used := used);
    ChainCons(items', m, rest, PrevOf(bs, i, tail), tail);
    ChainPrefix(items, items', bs, i, [m] + rest, tail, 0, tail);
    assert bs[..i] + ([m] + rest) == Mark(bs, i, used);
  }

  lemma ShiftChain(items: Items, bs: seq<Block>, i: nat, mid: nat, tail: nat)
    requires Chain(items, bs, tail, 0, tail) && i + 1 < |bs| && bs[i].used
    requires bs[i].start + ITEM_SIZE <= mid && mid + ITEM_SIZE <= bs[i + 1].end
    ensures bs[i].start in items && bs[i + 1].end in items
    ensures var joined := JoinItems(items, bs[i], bs[i + 1]);
            var m := Block(bs[i].start, bs[i + 1].end, true);
            && m.start in joined && m.end in joined
            && Chain(CarveItems(joined, m, mid), Shift(bs, i, mid), tail, 0, tail)
  {
    JoinChain(items, bs, i, tail);
    CarveChain(JoinItems(items, bs[i], bs[i + 1]), Joined(bs, i), i, mid, tail);
    assert Split(Joined(bs, i), i, mid, true, false) == Shift(bs, i, mid);
  }

  // The free list

  /** The payload size of the item at f. */
  function SizeOf(items: Items, f: int): int {
    if f in items then items[f].next - f - ITEM_SIZE else -1
  }

  /** The first entry of the free list with room for size bytes, or its length. */
  function FirstFree(items: Items, frees: seq<int>, size: int): (j: nat)
    ensures j <= |frees|
    ensures j < |frees| ==> SizeOf(items, frees[j]) >= size
    ensures forall k :: 0 <= k < j ==> SizeOf(items, frees[k]) < size
  {
    if frees == [] then 0
    else if SizeOf(items, frees[0]) >= size then 0
    else
      var k := FirstFree(items, frees[1..], size);
      assert forall m :: 0 < m <= k && m < |frees| ==> frees[m] == frees[1..][m - 1];
      k + 1
  }

  // Requests

  function Requested(request: nat): nat {
    if AlignUp(request) < MIN_ALLOC then MIN_ALLOC else AlignUp(request)
  }

  predicate Splits(freeSize: int, size: nat) {
    freeSize >= size + ITEM_SIZE + MIN_ALLOC
  }

  /** The used block an allocation of `size` makes of the free item at f. */
  function Placed(items: Items, f: int, size: nat): Block
    requires f in items && 0 <= f
  {
    Block(f, if Splits(SizeOf(items, f), size) then f + ITEM_SIZE + size else items[f].next, true)
  }

  class Heap {
    const poolSize: nat
    var items: Items
    var free: Links
    var available: int
    var maxUsed: int
    /** What the blocks' owners see; the items' headers are kept in `items`. */
    const data: array<bv8>
    ghost var blocks: seq<Block>
    ghost var frees: seq<int>

    function Tail(): nat {
      if ITEM_SIZE <= poolSize then poolSize - ITEM_SIZE else 0
    }

    /** All invariants but one: the free blocks at `pending` are not on the free list yet. */
    ghost predicate Wired(pending: set<int>)
      reads this
    {
      && 2 * ITEM_SIZE <= poolSize == data.Length
      && Chain(items, blocks, Tail(), 0, Tail())
      && Ring(free, FREE_HEADER, frees)
      && Elements(frees) == FreeStarts(blocks) - pending
      && available == Sum(blocks, false, ITEM_SIZE)
      && poolSize - available <= maxUsed
    }

    ghost predicate Valid()
      reads this
    {
      Wired({}) && FreePairs(blocks) == {}
    }

    constructor (size: nat)
      requires 2 * ITEM_SIZE <= size / ALIGN_SIZE * ALIGN_SIZE
      ensures Valid() && poolSize == size / ALIGN_SIZE * ALIGN_SIZE
      ensures blocks == [Block(0, poolSize - ITEM_SIZE, false)] && available == poolSize - 2 * ITEM_SIZE
      ensures fresh(data)
    {
      var pool := size / ALIGN_SIZE * ALIGN_SIZE;
      var tail := pool - ITEM_SIZE;
      poolSize := pool;
      data := new bv8[pool];
      available := pool - 2 * ITEM_SIZE;
      maxUsed := 2 * ITEM_SIZE;
      items := map[0 := Item(false, tail, tail), tail := Item(true, 0, 0)];
      free := map[FREE_HEADER := Link(0, 0), 0 := Link(FREE_HEADER, FREE_HEADER)];
      blocks := [Block(0, tail, false)];
      frees := [0];
      new;
      assert blocks[1..] == [] && frees[1..] == [];
      assert Path(free, 0, frees[1..], FREE_HEADER) && Distinct(frees);
      assert ([FREE_HEADER] + frees)[1..] == frees;
    }

    /** Puts item x at the front of the free list. */
    method PushFree(x: int)
      requires Ring(free, FREE_HEADER, frees) && x !in Elements(frees) && x != FREE_HEADER
      modifies this`free, this`frees
      ensures Ring(free, FREE_HEADER, frees) && frees == [x] + old(frees)
      ensures Elements(frees) == old(Elements(frees)) + {x}
    {
      RingInsert(free, FREE_HEADER, frees, 0, x);
      RingNeighbours(free, FREE_HEADER, frees, 0);
      var first := free[FREE_HEADER].next;
      free := free[x := Link(first, FREE_HEADER)];
      free := free[first := free[first].(prev := x)];
      free := free[FREE_HEADER := free[FREE_HEADER].(next := x)];
      assert free == Inserted(old(free), FREE_HEADER, x, first);
      assert frees[..0] + [x] + frees[0..] == [x] + frees;
      frees := [x] + frees;
    }

    /** Takes item x off the free list. */
    method DropFree(x: int)
      requires Ring(free, FREE_HEADER, frees) && x in Elements(frees)
      modifies this`free, this`frees
      ensures Ring(free, FREE_HEADER, frees) && frees == Without(old(frees), x)
      ensures Elements(frees) == old(Elements(frees)) - {x} && x in free && x != FREE_HEADER
    {
      ghost var j := WithoutIs(frees, x);
      RingFacts(free, FREE_HEADER, frees);
      WithoutFacts(frees, x);
      RingUnlink(free, FREE_HEADER, frees, j);
      RingCut(free, FREE_HEADER, frees, j);
      var next, prev := free[x].next, free[x].prev;
      free := free[next := free[next].(prev := prev)];
      free := free[prev := free[prev].(next := next)];
      assert free == Unlinked(old(free), x);
      frees := Without(frees, x);
    }

    /** rt_memheap_alloc: first fit in free-list order. */
    method Alloc(request: nat) returns (p: Pointer)
      requires Valid() && request <= MAX_SIZE - (ALIGN_SIZE - 1)
      modifies this
      ensures Valid()
      ensures AllocDone(old(items), old(frees), old(Live(blocks)), old(available), Requested(request), p, frees,
              Live(blocks))
      ensures p.Null? ==> unchanged(this)
      ensures maxUsed == Max(old(maxUsed), poolSize - available)
      ensures if p.At? then Serving(old(blocks), Live(blocks), p, request) != {}
              else Enough(request) >= available || Roomy(blocks, request) == {}
    {
      ghost var its, bs, fs, left := items, blocks, frees, available;
      p := Allocate(request);
      AllocServes(its, bs, fs, left, request, p, frees, Live(blocks), Tail());
    }

    method Allocate(request: nat) returns (p: Pointer)
      requires Valid() && request <= MAX_SIZE - (ALIGN_SIZE - 1)
      modifies this
      ensures Valid()
      ensures AllocDone(old(items), old(frees), old(Live(blocks)), old(available), Requested(request), p, frees,
              Live(blocks))
      ensures p.Null? ==> unchanged(this)
      ensures maxUsed == Max(old(maxUsed), poolSize - available)
    {
      var size := Requested(request);
      if size < available {
        var headerPtr, freeSize := Search(size);
        if freeSize >= size {
          assert headerPtr == frees[FirstFree(items, frees, size)] && headerPtr in Elements(frees);
          Take(headerPtr, size, freeSize);
          return At(headerPtr + ITEM_SIZE);
        }
      }
      return Null;
    }

    method FreeSize(headerPtr: int, ghost j: nat) returns (n: int)
      requires Valid() && j < |frees| && headerPtr == frees[j]
      ensures n == SizeOf(items, headerPtr) && headerPtr != FREE_HEADER
      ensures headerPtr in free && free[headerPtr].next == NodeAt(FREE_HEADER, frees, j + 1)
    {
      assert headerPtr in Elements(frees);
      FreeItem(items, blocks, Tail(), headerPtr);
      HeaderIsLast(free, FREE_HEADER, frees, j);
      RingNeighbours(free, FREE_HEADER, frees, j + 1);
      n := items[headerPtr].next - headerPtr - ITEM_SIZE;
    }

    /** Walks the free list until an item has room. */
    method Search(size: nat) returns (headerPtr: int, freeSize: int)
      requires Valid() && 0 < size
      ensures var j := FirstFree(items, frees, size);
              if j < |frees| then headerPtr == frees[j] && freeSize == SizeOf(items, headerPtr) >= size
                  else freeSize < size
    {
      freeSize := 0;
      ghost var j, first := 0, FirstFree(items, frees, size);
      RingNeighbours(free, FREE_HEADER, frees, 0);
      headerPtr := free[FREE_HEADER].next;
      while headerPtr != FREE_HEADER && freeSize < size
        invariant j <= first && headerPtr == NodeAt(FREE_HEADER, frees, j)
        invariant freeSize >= size ==> j == first < |frees| && freeSize == SizeOf(items, headerPtr)
        decreases |frees| - j, if freeSize < size then 1 else 0
      {
        freeSize := FreeSize(headerPtr, j);
        if freeSize < size {
          headerPtr := free[headerPtr].next;
          j := j + 1;
        }
      }
      HeaderIsLast(free, FREE_HEADER, frees, j);
    }

    /** Turns a free item into a used one, splitting off what is not needed. */
    method Take(f: int, size: nat, freeSize: int)
      requires Valid() && f in Elements(frees) && freeSize == SizeOf(items, f) >= size && MIN_ALLOC <= size
      modifies this
      ensures Valid() && f in old(items) && 0 <= f
      ensures Live(blocks) == old(Live(blocks)) + {Placed(old(items), f, size)}
      ensures frees == AfterAlloc(old(items), old(frees), f, size)
      ensures maxUsed == Max(old(maxUsed), poolSize - available)
    {
      ghost var i := FreeStartIndex(blocks, f);
      ChainAt(items, blocks, i, Tail(), 0, Tail());
      if freeSize >= size + ITEM_SIZE + MIN_ALLOC {
        TakeFront(f, size, i);
      } else {
        TakeWhole(f, i);
      }
    }

    method TakeFront(f: int, size: nat, ghost i: nat)
      requires Valid() && i < |blocks| && !blocks[i].used && f == blocks[i].start && f in Elements(frees)
      requires Splits(blocks[i].end - f - ITEM_SIZE, size)
      modifies this
      ensures Valid() && Live(blocks) == old(Live(blocks)) + {Block(f, f + ITEM_SIZE + size, true)}
      ensures frees == [f + ITEM_SIZE + size] + Without(old(frees), f)
      ensures maxUsed == Max(old(maxUsed), poolSize - available)
    {
      ghost var bs := blocks;
      var newPtr := f + size + ITEM_SIZE;
      SplitTaken(items, bs, i, size, Tail());
      CutItem(f, newPtr, bs[i]);
      DropFree(f);
      PushFree(newPtr);
      available := available - size - ITEM_SIZE;
      if poolSize - available > maxUsed {
        maxUsed := poolSize - available;
      }
      items := items[f := items[f].(used := true)];
      blocks := Split(bs, i, newPtr, true, false);
    }

    method TakeWhole(f: int, ghost i: nat)
      requires Valid() && i < |blocks| && !blocks[i].used && f == blocks[i].start && f in Elements(frees)
      modifies this
      ensures Valid() && Live(blocks) == old(Live(blocks)) + {Block(f, old(blocks)[i].end, true)}
      ensures frees == Without(old(frees), f)
      ensures maxUsed == Max(old(maxUsed), poolSize - available)
    {
      ghost var bs := blocks;
      WholeTaken(items, bs, i, Tail());
      available := available - (items[f].next - f - ITEM_SIZE);
      if poolSize - available > maxUsed {
        maxUsed := poolSize - available;
      }
      DropFree(f);
      items := items[f := items[f].(used := true)];
      blocks := Mark(bs, i, true);
    }

    /** left takes over the extent of right in the block list. */
    method JoinOver(left: int, right: int, ghost l: Block, ghost r: Block)
      requires left in items && right in items && items[right].next in items
      requires l.start == left && r.start == right && r.end == items[right].next && left != r.end
      modifies this`items
      ensures items == JoinItems(old(items), l, r)
    {
      var far := items[right].next;
      items := items[far := items[far].(prev := left)];
      items := items[left := items[left].(next := far)];
    }

    /** Places a free item at newPtr inside the item at f. */
    method CutItem(f: int, newPtr: int, ghost b: Block)
      requires f in items && items[f].next in items && f < newPtr < items[f].next && 0 <= f
      requires b.start == f && b.end == items[f].next
      modifies this`items
      ensures items == CarveItems(old(items), b, newPtr)
    {
      items := items[newPtr := Item(false, items[f].next, f)];
      items := items[items[f].next := items[items[f].next].(prev := newPtr)];
      items := items[f := items[f].(next := newPtr)];
    }

    /** rt_memheap_realloc into the free right neighbour. */
    method Grow(header: int, newsize: nat, ghost i: nat)
      requires Valid() && i < |blocks| && blocks[i].used && header == blocks[i].start
      requires newsize > blocks[i].end - header - ITEM_SIZE && Growable(blocks, i, newsize)
      modifies this
      ensures Valid()
      ensures Live(blocks) == old(Live(blocks)) - {old(blocks)[i]} + {Block(header, header + ITEM_SIZE + newsize, true)}
      ensures frees == [header + ITEM_SIZE + newsize] + TakenOver(old(blocks), i, old(frees))
    {
      var newPtr := header + ITEM_SIZE + newsize;
      GrowFits(items, blocks, i, newsize, Tail());
      GrowLayout(items, blocks, i, newPtr, Tail());
      var next := items[header].next;
      available := available - (newsize - (next - header - ITEM_SIZE));
      if poolSize - available > maxUsed {
        maxUsed := poolSize - available;
      }
      Relist(next, newPtr);
      MoveBorder(header, newPtr, i);
      blocks := Shift(blocks, i, newPtr);
    }

    /** One item leaves the free list and another one goes to its front. */
    method Relist(x: int, y: int)
      requires Ring(free, FREE_HEADER, frees) && x in Elements(frees) && y !in Elements(frees) && y != FREE_HEADER
      modifies this`free, this`frees
      ensures Ring(free, FREE_HEADER, frees) && frees == [y] + Without(old(frees), x)
      ensures Elements(frees) == old(Elements(frees)) - {x} + {y}
    {
      DropFree(x);
      PushFree(y);
    }

    /** The free item behind the one at header is taken out and put back at newPtr. */
    method MoveBorder(header: int, newPtr: int, ghost i: nat)
      requires Chain(items, blocks, Tail(), 0, Tail()) && i + 1 < |blocks| && blocks[i].used && !blocks[i + 1].used
      requires header == blocks[i].start && blocks[i].end < newPtr && newPtr + ITEM_SIZE <= blocks[i + 1].end
      modifies this`items
      ensures Chain(items, Shift(blocks, i, newPtr), Tail(), 0, Tail())
    {
      ghost var bs := blocks;
      GrowItems(items, bs, i, newPtr, Tail());
      var next := items[header].next;
      JoinOver(items[next].prev, next, bs[i], bs[i + 1]);
      CutItem(header, newPtr, Block(header, bs[i + 1].end, true));
    }

    /** rt_memheap_realloc to a smaller size, with the rest given back. */
    method Shrink(header: int, newsize: nat, ghost i: nat)
      requires Valid() && i < |blocks| && blocks[i].used && header == blocks[i].start
      requires newsize + ITEM_SIZE + MIN_ALLOC < blocks[i].end - header - ITEM_SIZE
      modifies this`items, this`free, this`available, this`blocks, this`frees
      ensures Valid()
      ensures Live(blocks) == old(Live(blocks)) - {old(blocks)[i]} + {Block(header, header + ITEM_SIZE + newsize, true)}
      ensures frees == [header + ITEM_SIZE + newsize] + TakenOver(old(blocks), i, old(frees))
    {
      var newPtr := header + newsize + ITEM_SIZE;
      CutTail(header, newPtr, i);
      MergeSplit(newPtr, i + 1);
      PushFree(newPtr);
      available := available + (items[newPtr].next - newPtr - ITEM_SIZE);
    }

    /** Splits a used block; the new free item is neither listed nor counted yet. */
    method CutTail(header: int, newPtr: int, ghost i: nat)
      requires Valid() && i < |blocks| && blocks[i].used && header == blocks[i].start
      requires header + ITEM_SIZE <= newPtr && newPtr + ITEM_SIZE <= blocks[i].end
      modifies this`items, this`blocks
      ensures Chain(items, blocks, Tail(), 0, Tail()) && FreePairs(blocks) <= {i + 1}
      ensures i + 1 < |blocks| && blocks[i + 1] == Block(newPtr, old(blocks)[i].end, false)
      ensures TakenOver(blocks, i + 1, frees) == TakenOver(old(blocks), i, frees)
      ensures Live(blocks) == old(Live(blocks)) - {old(blocks)[i]} + {Block(header, newPtr, true)}
      ensures Elements(frees) == FreeStarts(blocks) - {newPtr} && newPtr !in Elements(frees)
      ensures available == Sum(blocks, false, ITEM_SIZE) - (old(blocks)[i].end - newPtr - ITEM_SIZE)
    {
      ShrinkFacts(items, blocks, i, newPtr, Tail());
      CutItem(header, newPtr, blocks[i]);
      blocks := Split(blocks, i, newPtr, true, false);
    }

    /** The split-off item, not counted yet, takes over a free right neighbour. */
    method MergeSplit(newPtr: int, ghost k: nat)
      requires Chain(items, blocks, Tail(), 0, Tail()) && Ring(free, FREE_HEADER, frees)
      requires k < |blocks| && !blocks[k].used && newPtr == blocks[k].start && FreePairs(blocks) <= {k}
      requires Elements(frees) == FreeStarts(blocks) - {newPtr}
      requires available == Sum(blocks, false, ITEM_SIZE) - (blocks[k].end - newPtr - ITEM_SIZE)
      modifies this`items, this`free, this`available, this`blocks, this`frees
      ensures Chain(items, blocks, Tail(), 0, Tail()) && Ring(free, FREE_HEADER, frees)
      ensures k < |blocks| && blocks[k].start == newPtr && !blocks[k].used && FreePairs(blocks) == {}
      ensures newPtr in items && items[newPtr].next == blocks[k].end && newPtr in FreeStarts(blocks)
      ensures Elements(frees) == FreeStarts(blocks) - {newPtr} && Live(blocks) == old(Live(blocks))
      ensures available == Sum(blocks, false, ITEM_SIZE) - (blocks[k].end - newPtr - ITEM_SIZE)
      ensures available + blocks[k].end >= old(available + blocks[k].end)
      ensures frees == TakenOver(old(blocks), k, old(frees))
    {
      ghost var bs := blocks;
      Around(items, bs, k, Tail());
      MergeRightLast(bs, k);
      var freePtr := items[newPtr].next;
      if !items[freePtr].used {
        MergeFacts(items, bs, k, Tail());
        available := available - (items[freePtr].next - freePtr - ITEM_SIZE);
        assert freePtr in Elements(frees);
        JoinOver(newPtr, freePtr, bs[k], bs[k + 1]);
        DropFree(freePtr);
        blocks := Join(bs, k);
      }
    }

    /** rt_memheap_realloc of the block at index i. */
    method Realloc(ptr: Pointer, request: nat, ghost i: nat) returns (p: Pointer)
      requires Valid() && request <= MAX_SIZE - (ALIGN_SIZE - 1)
      requires ptr.At? ==> i < |blocks| && blocks[i].used && ptr == At(blocks[i].start + ITEM_SIZE)
      modifies this, data
      ensures Valid()
      ensures ReallocDone(old(items), old(blocks), old(frees), old(available), ptr, i, request, p, frees, Live(blocks))
      ensures ReallocList(old(items), old(blocks), old(frees), ptr, i, request, Tail(), p, frees)
      ensures p.At? ==> Serving(old(blocks), Live(blocks), p, request) != {}
      ensures p.Null? && request > 0 ==> Enough(request) >= old(available) || Roomy(old(blocks), request) == {}
      ensures if ptr.Null? || p.Null? then data[..] == old(data[..])
              else Moved(old(data[..]), data[..], old(Live(blocks)), old(blocks)[i], p.offset, Requested(request))
    {
      if request == 0 {
        Free(ptr, i);
        return Null;
      }
      ghost var its, bs, fs, left := items, blocks, frees, available;
      var newsize := Requested(request);
      RequestedFacts(request);
      if ptr == Null {
        p := Alloc(newsize);
        AllocServes(its, bs, fs, left, request, p, frees, Live(blocks), Tail());
        return;
      }
      p := Resize(ptr, newsize, i);
      if p != Null {
        ResizeServes(its, bs, fs, left, ptr, i, request, p, Live(blocks), Tail());
      } else {
        ResizeRefused(its, bs, fs, left, ptr, i, request, Live(blocks), Tail());
      }
    }

    /** rt_memheap_realloc once a live block and an aligned size are given. */
    method Resize(ptr: Pointer, newsize: nat, ghost i: nat) returns (p: Pointer)
      requires Valid() && newsize == Requested(newsize) && newsize <= MAX_SIZE - (ALIGN_SIZE - 1)
      requires i < |blocks| && blocks[i].used && ptr == At(blocks[i].start + ITEM_SIZE)
      modifies this, data
      ensures Valid()
      ensures ResizeDone(old(items), old(blocks), old(frees), old(available), ptr, i, newsize, p, Live(blocks))
      ensures ResizeList(old(items), old(blocks), old(frees), i, newsize, Tail(), p, frees)
      ensures if p.Null? then data[..] == old(data[..])
              else Moved(old(data[..]), data[..], old(Live(blocks)), old(blocks)[i], p.offset, newsize)
    {
      var header := ptr.offset - ITEM_SIZE;
      ghost var b := blocks[i];
      Around(items, blocks, i, Tail());
      ChainAt(items, blocks, i, Tail(), 0, Tail());
      var oldsize := items[header].next - header - ITEM_SIZE;
      if newsize > oldsize {
        var next := items[header].next;
        if !items[next].used {
          ChainAt(items, blocks, i + 1, Tail(), 0, Tail());
          var nextsize := items[next].next - next - ITEM_SIZE;
          if nextsize + oldsize > newsize + MIN_ALLOC {
            Grow(header, newsize, i);
            return ptr;
          }
        }
        p := Move(ptr, oldsize, newsize, b);
        return;
      }
      if newsize + ITEM_SIZE + MIN_ALLOC >= oldsize {
        return ptr;
      }
      Shrink(header, newsize, i);
      return ptr;
    }

    /** Allocates and, if that succeeds, copies the bytes and frees the old block. */
    method Move(ptr: Pointer, oldsize: nat, newsize: nat, ghost b: Block) returns (p: Pointer)
      requires Valid() && newsize == Requested(newsize) && newsize <= MAX_SIZE - (ALIGN_SIZE - 1)
      requires b in Live(blocks) && ptr == At(b.start + ITEM_SIZE) && oldsize == b.end - b.start - ITEM_SIZE
      modifies this, data
      ensures Valid()
      ensures MoveDone(old(items), old(blocks), old(frees), old(available), b, newsize, p, Live(blocks))
      ensures MoveList(old(items), old(blocks), old(frees), b, newsize, Tail(), p, frees)
      ensures if p.Null? then data[..] == old(data[..])
              else Moved(old(data[..]), data[..], old(Live(blocks)), b, p.offset, newsize)
    {
      ghost var live := Live(blocks);
      ghost var f;
      p, f := Secure(newsize, b);
      if p != Null {
        CopyPayload(ptr.offset, p.offset, Min(oldsize, newsize), newsize, live, b, f);
        FreeBlock(ptr, b);
      }
    }

    /** Allocates a block f beside live block b. */
    method Secure(newsize: nat, ghost b: Block) returns (p: Pointer, ghost f: Block)
      requires Valid() && newsize == Requested(newsize) && newsize <= MAX_SIZE - (ALIGN_SIZE - 1) && b in Live(blocks)
      modifies this
      ensures Valid()
      ensures MoveDone(old(items), old(blocks), old(frees), old(available), b, newsize, p,
                       if p.Null? then Live(blocks) else Live(blocks) - {b})
      ensures p.Null? ==> frees == old(frees)
      ensures p.At? ==>
                var j := FirstFree(old(items), old(frees), newsize);
                && j < |old(frees)| && f == Placed(old(items), old(frees)[j], newsize)
                && frees == AfterAlloc(old(items), old(frees), old(frees)[j], newsize)
      ensures p.At? ==>
                && Live(blocks) == old(Live(blocks)) + {f} && p.offset == f.start + ITEM_SIZE && b in Live(blocks)
                && (forall c :: c in old(Live(blocks)) ==> Apart(c, f))
                && f.start + ITEM_SIZE + newsize <= f.end <= data.Length && b.start + ITEM_SIZE <= b.end <= data.Length
    {
      ghost var bs, fs, its := blocks, frees, items;
      p := Alloc(newsize);
      f := b;
      if p != Null {
        f := Placed(its, fs[FirstFree(its, fs, newsize)], newsize);
        NewBlock(its, bs, fs, items, blocks, Tail(), newsize, b);
      }
    }

    /** Copies n bytes of live block b to the new block f. */
    method CopyPayload(src: nat, dst: nat, n: nat, ghost size: nat, ghost live: set<Block>, ghost b: Block,
                       ghost f: Block)
      requires b in live && (forall c :: c in live ==> Apart(c, f)) && src == b.start + ITEM_SIZE
               && dst == f.start + ITEM_SIZE
      requires src + n <= b.end <= data.Length && dst + n <= f.end <= data.Length
      requires n == Min(b.end - b.start - ITEM_SIZE, size)
      modifies data
      ensures Moved(old(data[..]), data[..], live, b, dst, size)
    {
      CopyMoves(data[..], live, b, f, n, size);
      MemCpy(data, dst, src, n);
    }

    /** rt_memheap_free of a live block. */
    method FreeBlock(ptr: Pointer, ghost b: Block)
      requires Valid() && b in Live(blocks) && ptr == At(b.start + ITEM_SIZE)
      modifies this`items, this`free, this`available, this`blocks, this`frees
      ensures Valid() && Live(blocks) == old(Live(blocks)) - {b}
      ensures FreedAmong(old(Live(blocks)), Tail(), b, old(frees), frees)
    {
      LayoutTiles(items, blocks, Tail());
      ghost var k :| 0 <= k < |blocks| && blocks[k] == b;
      Free(ptr, k);
    }

    /** The free block at left swallows its free right neighbour. */
    method MergeItems(left: int, right: int, ghost i: nat)
      requires Chain(items, blocks, Tail(), 0, Tail()) && available == Sum(blocks, false, ITEM_SIZE)
      requires i + 1 < |blocks| && !blocks[i].used && !blocks[i + 1].used
      requires left == blocks[i].start && right == blocks[i + 1].start
      modifies this`items, this`available, this`blocks
      ensures Chain(items, blocks, Tail(), 0, Tail()) && available == Sum(blocks, false, ITEM_SIZE)
      ensures blocks == Join(old(blocks), i) && Live(blocks) == old(Live(blocks))
      ensures FreeStarts(blocks) == old(FreeStarts(blocks)) - {right} && available >= old(available)
    {
      ghost var bs := blocks;
      MergeFacts(items, bs, i, Tail());
      available := available + ITEM_SIZE;
      JoinOver(left, right, bs[i], bs[i + 1]);
      blocks := Join(bs, i);
    }

    method MarkFree(mem: int, ghost i: nat)
      requires Valid() && i < |blocks| && blocks[i].used && mem == blocks[i].start
      modifies this`items, this`available, this`blocks
      ensures Wired({mem}) && blocks == Mark(old(blocks), i, false) && FreePairs(blocks) <= {i - 1, i}
      ensures Live(blocks) == old(Live(blocks)) - {old(blocks)[i]}
    {
      FreeFacts(items, blocks, i, Tail());
      assert items[mem].used;
      items := items[mem := items[mem].(used := false)];
      available := available + (items[mem].next - mem - ITEM_SIZE);
      blocks := Mark(blocks, i, false);
    }

    /** First half of rt_memheap_free's coalescing: into a free left neighbour. */
    method MergeLeft(mem: int, ghost i: nat) returns (header: int, insertHeader: bool, ghost k: nat)
      requires Wired({mem}) && i < |blocks| && !blocks[i].used && mem == blocks[i].start
      requires FreePairs(blocks) <= {i - 1, i}
      modifies this`items, this`available, this`blocks
      ensures Wired(if insertHeader then {header} else {}) && Live(blocks) == old(Live(blocks))
      ensures FreePairs(blocks) <= {k} && k < |blocks| && !blocks[k].used && header == blocks[k].start
      ensures insertHeader <==> i == 0 || old(blocks)[i - 1].used
      ensures if insertHeader then header == mem && k == i && blocks == old(blocks)
              else k == i - 1 && blocks == Join(old(blocks), i - 1)
    {
      header, insertHeader, k := mem, true, i;
      Around(items, blocks, i, Tail());
      MergeLeftFirst(blocks, i);
      if !items[items[mem].prev].used {
        header, insertHeader, k := items[mem].prev, false, i - 1;
        MergeItems(header, mem, i - 1);
      }
    }

    /** Second half: a free right neighbour is taken over and leaves the free list. */
    method MergeRight(header: int, ghost k: nat, ghost pending: set<int>)
      requires Wired(pending) && k < |blocks| && !blocks[k].used && header == blocks[k].start
      requires FreePairs(blocks) <= {k} && pending <= {header}
      modifies this`items, this`free, this`available, this`blocks, this`frees
      ensures Wired(pending) && FreePairs(blocks) == {} && Live(blocks) == old(Live(blocks))
      ensures header in FreeStarts(blocks)
      ensures frees == TakenOver(old(blocks), k, old(frees))
    {
      Around(items, blocks, k, Tail());
      MergeRightLast(blocks, k);
      if !items[items[header].next].used {
        var next := items[header].next;
        assert next in Elements(frees);
        MergeItems(header, next, k);
        DropFree(next);
      }
    }

    /** rt_memheap_free of the block at index i. */
    method Free(ptr: Pointer, ghost i: nat)
      requires Valid()
      requires ptr.At? ==> i < |blocks| && blocks[i].used && ptr == At(blocks[i].start + ITEM_SIZE)
      modifies this`items, this`free, this`available, this`blocks, this`frees
      ensures Valid()
      ensures Live(blocks) == if ptr.Null? then old(Live(blocks)) else old(Live(blocks)) - {old(blocks)[i]}
      ensures frees == if ptr.Null? then old(frees) else FreedList(old(blocks), i, old(frees))
    {
      if ptr == Null {
        return;
      }
      var mem := ptr.offset - ITEM_SIZE;
      MarkFree(mem, i);
      var header, insertHeader;
      ghost var k;
      header, insertHeader, k := MergeLeft(mem, i);
      MergeRight(header, k, if insertHeader then {header} else {});
      if insertHeader {
        PushFree(header);
      }
    }
  }

  /** The bytes of all these blocks read as before. */
  ghost predicate Untouched(before: seq<bv8>, after: seq<bv8>, live: set<Block>) {
    && |before| == |after|
    && forall c, k :: c in live && c.start + ITEM_SIZE <= k < c.end && k < |before| ==> after[k] == before[k]
  }

  /** The common prefix of block b is now at offset p, and the other blocks read as before. */
  ghost predicate Moved(before: seq<bv8>, after: seq<bv8>, live: set<Block>, b: Block, p: int, size: nat) {
    var n := Min(b.end - b.start - ITEM_SIZE, size);
    Bytes(after, p, n) == Bytes(before, b.start + ITEM_SIZE, n) && Untouched(before, after, live - {b})
  }

  lemma IsMoved(before: seq<bv8>, after: seq<bv8>, live: set<Block>, b: Block, p: int, size: nat)
    requires var n := Min(b.end - b.start - ITEM_SIZE, size);
             Bytes(after, p, n) == Bytes(before, b.start + ITEM_SIZE, n)
    requires Untouched(before, after, live)
    ensures Moved(before, after, live, b, p, size)
  {
  }

  ghost predicate Apart(b: Block, c: Block) {
    b.end <= c.start || c.end <= b.start
  }

  /** Copying n bytes into a new block leaves the live ones alone. */
  lemma CopyAside(data: seq<bv8>, live: set<Block>, b: Block, f: Block, n: nat)
    requires b in live && forall c :: c in live ==> Apart(c, f)
    requires b.start + ITEM_SIZE + n <= b.end <= |data| && f.start + ITEM_SIZE + n <= f.end <= |data|
    ensures var dst, src := f.start + ITEM_SIZE, b.start + ITEM_SIZE;
            && Disjoint(|data|, dst, src, n)
            && Untouched(data, Copied(data, dst, src, n), live)
            && Bytes(Copied(data, dst, src, n), dst, n) == Bytes(data, src, n)
  {
    var dst, src := f.start + ITEM_SIZE, b.start + ITEM_SIZE;
    assert Apart(b, f);
    CopiedBytes(data, dst, src, n);
    var after := Copied(data, dst, src, n);
    forall c, k | c in live && c.start + ITEM_SIZE <= k < c.end && k < |data| ensures after[k] == data[k] {
      assert Apart(c, f);
      CopiedAt(data, dst, src, n, k);
    }
  }

  lemma CopyMoves(data: seq<bv8>, live: set<Block>, b: Block, f: Block, n: nat, size: nat)
    requires b in live && (forall c :: c in live ==> Apart(c, f)) && n == Min(b.end - b.start - ITEM_SIZE, size)
    requires b.start + ITEM_SIZE + n <= b.end <= |data| && f.start + ITEM_SIZE + n <= f.end <= |data|
    ensures Disjoint(|data|, f.start + ITEM_SIZE, b.start + ITEM_SIZE, n)
    ensures Moved(data, Copied(data, f.start + ITEM_SIZE, b.start + ITEM_SIZE, n), live, b, f.start + ITEM_SIZE, size)
  {
    CopyAside(data, live, b, f, n);
    IsMoved(data, Copied(data, f.start + ITEM_SIZE, b.start + ITEM_SIZE, n), live, b, f.start + ITEM_SIZE, size);
  }

  lemma LiveApart(bs: seq<Block>, hi: nat, b: Block, c: Block)
    requires Tiles(bs, 0, hi) && b in bs && c in bs && b != c
    ensures Apart(b, c) && b.end <= hi
  {
    AllOrdered(bs, 0, hi);
    var i :| 0 <= i < |bs| && bs[i] == b;
    var j :| 0 <= j < |bs| && bs[j] == c;
  }

  /** The block an allocation makes lies apart from every live one, and both have room. */
  lemma NewBlock(items: Items, bs: seq<Block>, frees: seq<int>, items': Items, cs: seq<Block>, tail: nat, size: nat,
                 b: Block)
    requires Chain(items, bs, tail, 0, tail) && Chain(items', cs, tail, 0, tail) && Elements(frees) == FreeStarts(bs)
    requires b in Live(bs) && FirstFree(items, frees, size) < |frees|
    requires var g := frees[FirstFree(items, frees, size)];
             g in items && 0 <= g && Live(cs) == Live(bs) + {Placed(items, g, size)}
    ensures var f := Placed(items, frees[FirstFree(items, frees, size)], size);
            && f !in Live(bs) && (forall c :: c in Live(bs) ==> Apart(c, f))
            && f.start + ITEM_SIZE + size <= f.end <= tail && b.end <= tail && b in cs && b.start + ITEM_SIZE <= b.end
  {
    var g := frees[FirstFree(items, frees, size)];
    assert g in Elements(frees);
    PlacedIsNew(items, bs, tail, g, size);
    var f := Placed(items, g, size);
    assert f in Live(cs) && b in Live(cs);
    ChainTiles(items', cs, tail, 0, tail);
    forall c | c in Live(bs) ensures Apart(c, f) && c.end <= tail {
      assert c in Live(cs);
      LiveApart(cs, tail, c, f);
    }
    LiveApart(cs, tail, f, b);
    var k :| 0 <= k < |bs| && bs[k] == b;
    ChainAt(items, bs, k, tail, 0, tail);
  }

  /** The outcome of rt_memheap_realloc of the block at index i. */
  ghost predicate ReallocDone(items: Items, bs: seq<Block>, frees: seq<int>, available: int, ptr: Pointer, i: nat,
                              request: nat,
                              p: Pointer, frees': seq<int>, live': set<Block>)
    requires ptr.At? ==> i < |bs|
  {
    var n := Requested(request);
    if request == 0 then p == Null && live' == if ptr.Null? then Live(bs) else Live(bs) - {bs[i]}
    else if ptr.Null? then AllocDone(items, frees, Live(bs), available, n, p, frees', live')
    else ResizeDone(items, bs, frees, available, ptr, i, n, p, live')
  }

  /** Grow into a free right neighbour, cut in place, move, or leave alone. */
  ghost predicate ResizeDone(items: Items, bs: seq<Block>, frees: seq<int>, available: int, ptr: Pointer, i: nat,
                             n: nat,
                             p: Pointer, live': set<Block>)
    requires i < |bs|
  {
    var b := bs[i];
    var size, cut := b.end - b.start - ITEM_SIZE, Block(b.start, b.start + ITEM_SIZE + n, true);
    if n > size && !Growable(bs, i, n) then MoveDone(items, bs, frees, available, b, n, p, live')
    else if n <= size <= n + ITEM_SIZE + MIN_ALLOC then p == ptr && live' == Live(bs)
    else p == ptr && live' == Live(bs) - {b} + {cut}
  }

  ghost predicate MoveDone(items: Items, bs: seq<Block>, frees: seq<int>, available: int, b: Block, n: nat,
                           p: Pointer, live': set<Block>)
  {
    var j := FirstFree(items, frees, n);
    if n >= available || j == |frees| then p == Null && live' == Live(bs)
    else
      && frees[j] in items && 0 <= frees[j] && p == At(frees[j] + ITEM_SIZE)
      && live' == Live(bs) + {Placed(items, frees[j], n)} - {b}
  }

  /** The right neighbour of block i is free and large enough to grow into. */
  ghost predicate Growable(bs: seq<Block>, i: nat, n: nat)
    requires i < |bs|
  {
    && i + 1 < |bs| && !bs[i + 1].used
    && (bs[i + 1].end - bs[i + 1].start - ITEM_SIZE) + (bs[i].end - bs[i].start - ITEM_SIZE) > n + MIN_ALLOC
  }

  lemma GrowFreeStarts(bs: seq<Block>, i: nat, mid: nat, tail: nat)
    requires Tiles(bs, 0, tail) && i + 1 < |bs| && bs[i].used && !bs[i + 1].used
    requires bs[i + 1].start < mid < bs[i + 1].end
    ensures FreeStarts(Shift(bs, i, mid)) == FreeStarts(bs) - {bs[i + 1].start} + {mid}
    ensures bs[i + 1].start in FreeStarts(bs) && mid !in FreeStarts(bs)
  {
    ShiftFreeStarts(bs, i, mid, 0, tail);
    FreeStartAt(bs, i + 1, 0, tail);
    InteriorIsNoStart(bs, i + 1, mid, 0, tail);
  }

  /** The border moves to a place inside the free right neighbour. */
  lemma GrowFits(items: Items, bs: seq<Block>, i: nat, n: nat, tail: nat)
    requires Chain(items, bs, tail, 0, tail) && i < |bs|
    requires n > bs[i].end - bs[i].start - ITEM_SIZE && Growable(bs, i, n)
    ensures var mid := bs[i].start + ITEM_SIZE + n;
            bs[i].start < bs[i + 1].start && bs[i].end == bs[i + 1].start < mid && mid + ITEM_SIZE <= bs[i + 1].end
    ensures bs[i].start in items && items[bs[i].start].next == bs[i + 1].start
  {
    ChainTiles(items, bs, tail, 0, tail);
    ChainAt(items, bs, i, tail, 0, tail);
  }

  lemma GrowItems(items: Items, bs: seq<Block>, i: nat, mid: nat, tail: nat)
    requires Chain(items, bs, tail, 0, tail) && i + 1 < |bs| && bs[i].used && !bs[i + 1].used
    requires bs[i].end < mid && mid + ITEM_SIZE <= bs[i + 1].end
    ensures bs[i].start in items && bs[i + 1].end in items
    ensures var b, r := bs[i], bs[i + 1];
            var joined, m := JoinItems(items, b, r), Block(b.start, r.end, true);
            && b.start in items && r.start in items && r.end in items && r.end in joined && b.start in joined
            && items[b.start].next == r.start == b.end && items[r.start] == Item(false, r.end, b.start)
            && joined[b.start].next == r.end && b.start < r.start < mid < r.end
            && Chain(CarveItems(joined, m, mid), Shift(bs, i, mid), tail, 0, tail)
  {
    ChainAt(items, bs, i, tail, 0, tail);
    ChainAt(items, bs, i + 1, tail, 0, tail);
    ShiftChain(items, bs, i, mid, tail);
  }

  lemma GrowLayout(items: Items, bs: seq<Block>, i: nat, mid: nat, tail: nat)
    requires Chain(items, bs, tail, 0, tail) && FreePairs(bs) == {} && i + 1 < |bs| && bs[i].used && !bs[i + 1].used
    requires bs[i].start < bs[i + 1].start < mid < bs[i + 1].end
    ensures FreePairs(Shift(bs, i, mid)) == {}
    ensures Live(Shift(bs, i, mid)) == Live(bs) - {bs[i]} + {Block(bs[i].start, mid, true)}
    ensures Sum(Shift(bs, i, mid), false, ITEM_SIZE) == Sum(bs, false, ITEM_SIZE) - (mid - bs[i].end)
    ensures FreeStarts(Shift(bs, i, mid)) == FreeStarts(bs) - {bs[i + 1].start} + {mid}
    ensures bs[i + 1].start in FreeStarts(bs) && mid !in FreeStarts(bs)
  {
    ChainTiles(items, bs, tail, 0, tail);
    ShiftFacts(bs, i, mid, 0, tail, ITEM_SIZE);
    GrowFreeStarts(bs, i, mid, tail);
  }

  /** Cutting a used block: the tail becomes a free item. */
  lemma ShrinkFacts(items: Items, bs: seq<Block>, i: nat, mid: nat, tail: nat)
    requires Chain(items, bs, tail, 0, tail) && FreePairs(bs) == {} && i < |bs| && bs[i].used
    requires bs[i].start + ITEM_SIZE <= mid && mid + ITEM_SIZE <= bs[i].end
    ensures var b, cs := bs[i], Split(bs, i, mid, true, false);
            && b.start in items && b.end in items && items[b.start].next == b.end && b.start < mid < b.end
            && Chain(CarveItems(items, b, mid), cs, tail, 0, tail)
            && FreePairs(cs) <= {i + 1} && Live(cs) == Live(bs) - {b} + {Block(b.start, mid, true)}
            && Sum(cs, false, ITEM_SIZE) == Sum(bs, false, ITEM_SIZE) + (b.end - mid - ITEM_SIZE)
            && FreeStarts(cs) == FreeStarts(bs) + {mid} && mid !in FreeStarts(bs)
            && i + 1 < |cs| && cs[i + 1] == Block(mid, b.end, false)
  {
    ChainAt(items, bs, i, tail, 0, tail);
    CarveChain(items, bs, i, mid, tail);
    ChainTiles(items, bs, tail, 0, tail);
    SplitFreePairs(bs, i, mid);
    SplitLive(bs, i, mid, true, 0, tail);
    SplitSum(bs, i, mid, true, false, false, ITEM_SIZE);
    SplitFreeStarts(bs, i, mid, true, 0, tail);
    FreeStartAt(bs, i, 0, tail);
    InteriorIsNoStart(bs, i, mid, 0, tail);
  }

  /** Where the block links of block i lead. */
  lemma Around(items: Items, bs: seq<Block>, i: nat, tail: nat)
    requires Chain(items, bs, tail, 0, tail) && i < |bs|
    ensures bs[i].start in items && items[bs[i].start].next in items && items[bs[i].start].prev in items
    ensures items[bs[i].start].next == bs[i].end
    ensures var n := items[bs[i].start].next;
            if i + 1 < |bs| then n == bs[i + 1].start && items[n].used == bs[i + 1].used && bs[i].start < n
                else items[n].used
    ensures var q := items[bs[i].start].prev;
            if i > 0 then q == bs[i - 1].start && items[q].used == bs[i - 1].used else items[q].used
    ensures bs[i].start in FreeStarts(bs) <==> !bs[i].used
    ensures i + 1 < |bs| ==> (bs[i + 1].start in FreeStarts(bs) <==> !bs[i + 1].used)
    ensures items[bs[i].start].used == bs[i].used
  {
    ChainAt(items, bs, i, tail, 0, tail);
    if i > 0 {
      ChainAt(items, bs, i - 1, tail, 0, tail);
    }
    ChainTiles(items, bs, tail, 0, tail);
    FreeStartAt(bs, i, 0, tail);
    if i + 1 < |bs| {
      FreeStartAt(bs, i + 1, 0, tail);
    }
  }

  /** The free list without the right neighbour of block i, if that is free. */
  ghost function TakenOver(bs: seq<Block>, i: nat, frees: seq<int>): seq<int>
    requires i < |bs|
  {
    if i + 1 < |bs| && !bs[i + 1].used then Without(frees, bs[i + 1].start) else frees
  }

  /** The free list after block i was freed: the freed block goes in front unless
      its left neighbour takes it over, and its right neighbour comes off. */
  ghost function FreedList(bs: seq<Block>, i: nat, frees: seq<int>): seq<int>
    requires i < |bs|
  {
    var kept := TakenOver(bs, i, frees);
    if i > 0 && !bs[i - 1].used then kept else [bs[i].start] + kept
  }

  /** The free list after size bytes were taken from the free item at f: what is left of it in front. */
  ghost function AfterAlloc(items: Items, frees: seq<int>, f: int, size: nat): seq<int> {
    (if Splits(SizeOf(items, f), size) then [f + ITEM_SIZE + size] else []) + Without(frees, f)
  }

  /** Block b was freed among these live blocks, which determine its neighbours. */
  ghost predicate FreedAmong(live: set<Block>, tail: nat, b: Block, frees: seq<int>, frees': seq<int>) {
    exists bs: seq<Block>, k: nat ::
      && Coalesced(bs, 0, tail) && Live(bs) == live && k < |bs| && bs[k] == b && frees' == FreedList(bs, k, frees)
  }

  // The free list after rt_memheap_realloc of the block at index i

  ghost predicate ReallocList(items: Items, bs: seq<Block>, frees: seq<int>, ptr: Pointer, i: nat, request: nat,
                              tail: nat, p: Pointer, frees': seq<int>)
    requires ptr.At? ==> i < |bs|
  {
    ptr.At? ==>
      if request == 0 then frees' == FreedList(bs, i, frees)
      else ResizeList(items, bs, frees, i, Requested(request), tail, p, frees')
  }

  ghost predicate ResizeList(items: Items, bs: seq<Block>, frees: seq<int>, i: nat, n: nat, tail: nat, p: Pointer,
                             frees': seq<int>)
    requires i < |bs|
  {
    var b := bs[i];
    var size := b.end - b.start - ITEM_SIZE;
    if n > size && !Growable(bs, i, n) then MoveList(items, bs, frees, b, n, tail, p, frees')
    else if n <= size <= n + ITEM_SIZE + MIN_ALLOC then frees' == frees
    else frees' == [b.start + ITEM_SIZE + n] + TakenOver(bs, i, frees)
  }

  ghost predicate MoveList(items: Items, bs: seq<Block>, frees: seq<int>, b: Block, n: nat, tail: nat, p: Pointer,
                           frees': seq<int>)
  {
    var j := FirstFree(items, frees, n);
    if p.Null? then frees' == frees
    else
      && j < |frees| && frees[j] in items && 0 <= frees[j]
      && FreedAmong(Live(bs) + {Placed(items, frees[j], n)}, tail, b, AfterAlloc(items, frees, frees[j], n), frees')
  }

  /** The outcome of rt_memheap_alloc for an aligned size. */
  ghost predicate AllocDone(items: Items, frees: seq<int>, live: set<Block>, available: int, size: nat,
                            p: Pointer, frees': seq<int>, live': set<Block>)
  {
    var j := FirstFree(items, frees, size);
    if size >= available || j == |frees| then p == Null && live' == live && frees' == frees
    else
      var f := frees[j];
      && f in items && 0 <= f && p == At(f + ITEM_SIZE)
      && live' == live + {Placed(items, f, size)}
      && frees' == AfterAlloc(items, frees, f, size)
  }

  // What the caller gets

  /** At most this much is looked for. */
  function Enough(request: nat): nat {
    Max(request + ALIGN_SIZE - 1, MIN_ALLOC)
  }

  /** The block in use whose payload is at p, if it is of the right size. */
  ghost function Serving(bs: seq<Block>, live: set<Block>, p: Pointer, request: nat): set<Block> {
    set b | b in live && p == At(b.start + ITEM_SIZE) && RightSize(bs, b, b.end - b.start - ITEM_SIZE, request)
  }

  /** A block b that holds the request. If it ends inside a block c of the layout from before, it is
      no longer than rounding up makes it and leaves enough of c for another block; if it ends where
      c did, it has at most too little to spare for one. */
  ghost predicate RightSize(bs: seq<Block>, b: Block, room: int, request: nat) {
    request <= room && exists c :: c in bs && FitsIn(c, b.end, room, Enough(request))
  }

  ghost predicate FitsIn(c: Block, end: int, room: int, enough: int) {
    if end == c.end then room <= enough + ITEM_SIZE + MIN_ALLOC
    else c.start < end && end + ITEM_SIZE + MIN_ALLOC <= c.end && room <= enough && room % ALIGN_SIZE == 0
  }

  /** The free blocks with room for all that may be looked for. */
  ghost function Roomy(bs: seq<Block>, request: nat): set<Block> {
    set b | b in bs && !b.used && b.end - b.start - ITEM_SIZE >= Enough(request)
  }

  lemma BlockServes(bs: seq<Block>, live: set<Block>, b: Block, request: nat)
    requires b in live && RightSize(bs, b, b.end - b.start - ITEM_SIZE, request)
    ensures Serving(bs, live, At(b.start + ITEM_SIZE), request) != {}
  {
    assert b in Serving(bs, live, At(b.start + ITEM_SIZE), request);
  }

  lemma RequestedFacts(request: nat)
    ensures request <= Requested(request) <= Enough(request) && Requested(request) % ALIGN_SIZE == 0
    ensures Requested(Requested(request)) == Requested(request)
  {
  }

  /** A block of exactly the size looked for, such as one grown or cut in place. */
  lemma ExactServes(bs: seq<Block>, c: Block, start: nat, request: nat, live: set<Block>)
    requires Block(start, start + ITEM_SIZE + Requested(request), true) in live && c in bs
    requires c.start < start + ITEM_SIZE + Requested(request)
    requires start + ITEM_SIZE + Requested(request) + ITEM_SIZE + MIN_ALLOC <= c.end
    ensures Serving(bs, live, At(start + ITEM_SIZE), request) != {}
  {
    RequestedFacts(request);
    assert FitsIn(c, start + ITEM_SIZE + Requested(request), Requested(request), Enough(request));
    BlockServes(bs, live, Block(start, start + ITEM_SIZE + Requested(request), true), request);
  }

  lemma PlacedServes(items: Items, bs: seq<Block>, f: int, request: nat, tail: nat, live: set<Block>)
    requires Chain(items, bs, tail, 0, tail) && f in FreeStarts(bs) && SizeOf(items, f) >= Requested(request)
    ensures f in items && 0 <= f
    ensures Placed(items, f, Requested(request)) in live ==> Serving(bs, live, At(f + ITEM_SIZE), request) != {}
  {
    var i := FreeStartIndex(bs, f);
    ChainAt(items, bs, i, tail, 0, tail);
    RequestedFacts(request);
    assert bs[i] in bs;
    if Placed(items, f, Requested(request)) in live {
      if Splits(SizeOf(items, f), Requested(request)) {
        ExactServes(bs, bs[i], f, request, live);
      } else {
        assert FitsIn(bs[i], bs[i].end, SizeOf(items, f), Enough(request));
        BlockServes(bs, live, Placed(items, f, Requested(request)), request);
      }
    }
  }

  lemma NothingRoomy(items: Items, bs: seq<Block>, frees: seq<int>, request: nat, tail: nat)
    requires Chain(items, bs, tail, 0, tail) && Elements(frees) == FreeStarts(bs) && 0 < tail
    requires FirstFree(items, frees, Requested(request)) == |frees|
    ensures Roomy(bs, request) == {}
  {
    LayoutTiles(items, bs, tail);
    forall b | b in bs && !b.used ensures b !in Roomy(bs, request) {
      var i :| 0 <= i < |bs| && bs[i] == b;
      ChainAt(items, bs, i, tail, 0, tail);
      FreeStartAt(bs, i, 0, tail);
      assert b.start in Elements(frees);
      var k :| 0 <= k < |frees| && frees[k] == b.start;
      RequestedFacts(request);
    }
  }

  /** What rt_memheap_alloc promises its caller, whatever it rounds to and wherever it looks. */
  lemma AllocServes(items: Items, bs: seq<Block>, frees: seq<int>, available: int, request: nat, p: Pointer,
                    frees': seq<int>, live': set<Block>, tail: nat)
    requires Chain(items, bs, tail, 0, tail) && Elements(frees) == FreeStarts(bs) && 0 < tail
    requires AllocDone(items, frees, Live(bs), available, Requested(request), p, frees', live')
    ensures p.At? ==> Serving(bs, live', p, request) != {}
    ensures p.Null? ==> Enough(request) >= available || Roomy(bs, request) == {}
  {
    RequestedFacts(request);
    var j := FirstFree(items, frees, Requested(request));
    if p.At? {
      assert frees[j] in Elements(frees);
      PlacedServes(items, bs, frees[j], request, tail, live');
    } else if Requested(request) < available {
      NothingRoomy(items, bs, frees, request, tail);
    }
  }

  /** And rt_memheap_realloc. */
  lemma ReallocServes(items: Items, bs: seq<Block>, frees: seq<int>, available: int, ptr: Pointer, i: nat,
                      request: nat, p: Pointer, frees': seq<int>, live': set<Block>, tail: nat)
    requires Chain(items, bs, tail, 0, tail) && Elements(frees) == FreeStarts(bs) && 0 < tail
    requires ptr.At? ==> i < |bs| && bs[i].used && ptr == At(bs[i].start + ITEM_SIZE)
    requires ReallocDone(items, bs, frees, available, ptr, i, request, p, frees', live')
    ensures p.At? ==> Serving(bs, live', p, request) != {}
    ensures p.Null? && request > 0 ==> Enough(request) >= available || Roomy(bs, request) == {}
  {
    if p.At? || request > 0 {
      if ptr.Null? {
        AllocServes(items, bs, frees, available, request, p, frees', live', tail);
      } else if p.At? {
        ResizeServes(items, bs, frees, available, ptr, i, request, p, live', tail);
      } else {
        ResizeRefused(items, bs, frees, available, ptr, i, request, live', tail);
      }
    }
  }

  lemma ResizeRefused(items: Items, bs: seq<Block>, frees: seq<int>, available: int, ptr: Pointer, i: nat,
                      request: nat, live': set<Block>, tail: nat)
    requires Chain(items, bs, tail, 0, tail) && Elements(frees) == FreeStarts(bs) && 0 < tail && ptr.At? && i < |bs|
    requires ResizeDone(items, bs, frees, available, ptr, i, Requested(request), Null, live')
    ensures Enough(request) >= available || Roomy(bs, request) == {}
  {
    RequestedFacts(request);
    if Requested(request) < available {
      NothingRoomy(items, bs, frees, request, tail);
    }
  }

  lemma ResizeServes(items: Items, bs: seq<Block>, frees: seq<int>, available: int, ptr: Pointer, i: nat,
                     request: nat, p: Pointer, live': set<Block>, tail: nat)
    requires Chain(items, bs, tail, 0, tail) && Elements(frees) == FreeStarts(bs) && p.At?
    requires i < |bs| && bs[i].used && ptr == At(bs[i].start + ITEM_SIZE)
    requires ResizeDone(items, bs, frees, available, ptr, i, Requested(request), p, live')
    ensures Serving(bs, live', p, request) != {}
  {
    var b, n := bs[i], Requested(request);
    var size := b.end - b.start - ITEM_SIZE;
    if n > size && !Growable(bs, i, n) {
      MoveServes(items, bs, frees, available, b, request, p, live', tail);
    } else if n <= size <= n + ITEM_SIZE + MIN_ALLOC {
      RequestedFacts(request);
      assert b in bs && b in live' && FitsIn(b, b.end, size, Enough(request));
      BlockServes(bs, live', b, request);
    } else if n <= size {
      assert b in bs;
      ExactServes(bs, b, b.start, request, live');
    } else {
      ChainAt(items, bs, i, tail, 0, tail);
      assert bs[i + 1] in bs;
      ExactServes(bs, bs[i + 1], b.start, request, live');
    }
  }

  lemma MoveServes(items: Items, bs: seq<Block>, frees: seq<int>, available: int, b: Block, request: nat, p: Pointer,
                   live': set<Block>, tail: nat)
    requires Chain(items, bs, tail, 0, tail) && Elements(frees) == FreeStarts(bs) && p.At?
    requires b in Live(bs) && MoveDone(items, bs, frees, available, b, Requested(request), p, live')
    ensures Serving(bs, live', p, request) != {}
  {
    var f := frees[FirstFree(items, frees, Requested(request))];
    assert f in Elements(frees);
    PlacedIsNew(items, bs, tail, f, Requested(request));
    PlacedServes(items, bs, f, request, tail, live');
  }

  /** A free start is an item of the chain. */
  lemma FreeItem(items: Items, bs: seq<Block>, tail: nat, f: int)
    requires Chain(items, bs, tail, 0, tail) && f in FreeStarts(bs)
    ensures f in items && 0 <= f
  {
    var i := FreeStartIndex(bs, f);
    ChainAt(items, bs, i, tail, 0, tail);
  }

  lemma SplitTaken(items: Items, bs: seq<Block>, i: nat, size: nat, tail: nat)
    requires Chain(items, bs, tail, 0, tail) && FreePairs(bs) == {} && i < |bs| && !bs[i].used
    requires bs[i].end - bs[i].start - ITEM_SIZE >= size + ITEM_SIZE + MIN_ALLOC
    ensures var s, mid := bs[i].start, bs[i].start + ITEM_SIZE + size;
            var cs := Split(bs, i, mid, true, false);
            && s in items && bs[i].end in items && items[s].next == bs[i].end && s < mid < bs[i].end
            && s in CarveItems(items, bs[i], mid)
            && Chain(CarveItems(items, bs[i], mid)[s := CarveItems(items, bs[i], mid)[s].(used := true)], cs, tail, 0,
               tail)
            && FreePairs(cs) == {}
            && Live(cs) == Live(bs) + {Block(s, mid, true)}
            && Sum(cs, false, ITEM_SIZE) == Sum(bs, false, ITEM_SIZE) - size - ITEM_SIZE
            && mid !in FreeStarts(bs) && FreeStarts(cs) == FreeStarts(bs) - {s} + {mid}
  {
    var s, mid := bs[i].start, bs[i].start + ITEM_SIZE + size;
    var cs := Split(bs, i, mid, false, false);
    ChainAt(items, bs, i, tail, 0, tail);
    CarveChain(items, bs, i, mid, tail);
    MarkChain(CarveItems(items, bs[i], mid), cs, i, true, tail);
    assert Mark(cs, i, true) == Split(bs, i, mid, true, false);
    SplitTakenLayout(items, bs, i, mid, tail);
  }

  lemma SplitTakenLayout(items: Items, bs: seq<Block>, i: nat, mid: nat, tail: nat)
    requires Chain(items, bs, tail, 0, tail) && FreePairs(bs) == {} && i < |bs| && !bs[i].used
    requires bs[i].start < mid < bs[i].end
    ensures var s, cs := bs[i].start, Split(bs, i, mid, true, false);
            && FreePairs(cs) == {} && Live(cs) == Live(bs) + {Block(s, mid, true)}
            && Sum(cs, false, ITEM_SIZE) == Sum(bs, false, ITEM_SIZE) - (mid - s)
            && mid !in FreeStarts(bs) && FreeStarts(cs) == FreeStarts(bs) - {s} + {mid}
  {
    ChainTiles(items, bs, tail, 0, tail);
    SplitFreePairs(bs, i, mid);
    SplitLive(bs, i, mid, true, 0, tail);
    assert bs[i] !in Live(bs);
    SplitSum(bs, i, mid, true, false, false, ITEM_SIZE);
    SplitFreeStarts(bs, i, mid, true, 0, tail);
    InteriorIsNoStart(bs, i, mid, 0, tail);
  }

  lemma WholeTaken(items: Items, bs: seq<Block>, i: nat, tail: nat)
    requires Chain(items, bs, tail, 0, tail) && FreePairs(bs) == {} && i < |bs| && !bs[i].used
    ensures var s, cs := bs[i].start, Mark(bs, i, true);
            && s in items && items[s].next == bs[i].end
            && Chain(items[s := items[s].(used := true)], cs, tail, 0, tail)
            && FreePairs(cs) == {}
            && Live(cs) == Live(bs) + {Block(s, bs[i].end, true)}
            && Sum(cs, false, ITEM_SIZE) == Sum(bs, false, ITEM_SIZE) - (bs[i].end - s - ITEM_SIZE)
            && FreeStarts(cs) == FreeStarts(bs) - {s}
  {
    ChainAt(items, bs, i, tail, 0, tail);
    MarkChain(items, bs, i, true, tail);
    ChainTiles(items, bs, tail, 0, tail);
    MarkLive(bs, i, true, 0, tail);
    assert bs[i] !in Live(bs);
    MarkSum(bs, i, true, false, ITEM_SIZE);
    MarkFreePairs(bs, i);
    MarkFreeStarts(bs, i, true, 0, tail);
  }

  lemma MergeFacts(items: Items, bs: seq<Block>, i: nat, tail: nat)
    requires Chain(items, bs, tail, 0, tail) && i + 1 < |bs| && !bs[i].used && !bs[i + 1].used
    ensures var l, r := bs[i], bs[i + 1];
            && l.start in items && r.start in items && r.end in items
            && l.start < r.start < r.end && items[r.start].next == r.end
            && Chain(JoinItems(items, l, r), Join(bs, i), tail, 0, tail)
            && Live(Join(bs, i)) == Live(bs)
            && Sum(Join(bs, i), false, ITEM_SIZE) == Sum(bs, false, ITEM_SIZE) + ITEM_SIZE
            && FreeStarts(Join(bs, i)) == FreeStarts(bs) - {r.start}
  {
    ChainAt(items, bs, i, tail, 0, tail);
    ChainAt(items, bs, i + 1, tail, 0, tail);
    JoinChain(items, bs, i, tail);
    ChainTiles(items, bs, tail, 0, tail);
    JoinLive(bs, i);
    JoinSum(bs, i, false, ITEM_SIZE);
    JoinFreeStarts(bs, i, 0, tail);
  }

  lemma FreeFacts(items: Items, bs: seq<Block>, i: nat, tail: nat)
    requires Chain(items, bs, tail, 0, tail) && FreePairs(bs) == {} && i < |bs| && bs[i].used
    ensures var s, cs := bs[i].start, Mark(bs, i, false);
            && s in items && items[s].used && items[s].next == bs[i].end && s + ITEM_SIZE <= bs[i].end
            && Chain(items[s := items[s].(used := false)], cs, tail, 0, tail)
            && FreePairs(cs) <= {i - 1, i}
            && Live(cs) == Live(bs) - {bs[i]}
            && Sum(cs, false, ITEM_SIZE) == Sum(bs, false, ITEM_SIZE) + (bs[i].end - s - ITEM_SIZE)
            && s !in FreeStarts(bs) && FreeStarts(cs) == FreeStarts(bs) + {s}
  {
    ChainAt(items, bs, i, tail, 0, tail);
    MarkChain(items, bs, i, false, tail);
    ChainTiles(items, bs, tail, 0, tail);
    MarkLive(bs, i, false, 0, tail);
    MarkSum(bs, i, false, false, ITEM_SIZE);
    MarkFreePairs(bs, i);
    MarkFreeStarts(bs, i, false, 0, tail);
    FreeStartAt(bs, i, 0, tail);
  }

  // Round trips

  /** Conservation: the used blocks, the free payloads and the free headers fill the pool up to
      the tail item. */
  lemma Conservation(h: Heap)
    requires h.Valid()
    ensures Sum(h.blocks, true, 0) + h.available + ITEM_SIZE * FreeCount(h.blocks) == h.Tail()
  {
    EndOrMore(h.items, h.blocks, h.Tail(), 0, h.Tail());
    ChainTiles(h.items, h.blocks, h.Tail(), 0, h.Tail());
    ExtentsAddUp(h.blocks, 0, h.Tail());
    SumOverhead(h.blocks, ITEM_SIZE);
  }

  /** What an allocation takes was free, so nothing live looks like it. */
  lemma PlacedIsNew(items: Items, bs: seq<Block>, tail: nat, f: int, size: nat)
    requires Chain(items, bs, tail, 0, tail) && f in FreeStarts(bs)
    ensures f in items && 0 <= f && Placed(items, f, size) !in Live(bs)
    ensures bs != []
  {
    FreeItem(items, bs, tail, f);
    ChainTiles(items, bs, tail, 0, tail);
    var i := FreeStartIndex(bs, f);
    AllOrdered(bs, 0, tail);
    forall c | c in Live(bs) ensures c.start != f {
      var k :| 0 <= k < |bs| && bs[k] == c;
    }
  }

  /** What a user of the heap may ask for next. */
  datatype Request = Ask(size: nat) | Give(p: int) | Alter(p: int, size: nat)

  /** The sizes a 32-bit request may have without wrapping when it is aligned. */
  predicate Askable(r: Request) {
    r.Give? || r.size <= MAX_SIZE - (ALIGN_SIZE - 1)
  }

  lemma OneSwapped(bs: seq<Block>, cs: seq<Block>, b: Block, f: Block, tail: nat)
    requires Tiles(bs, 0, tail) && b in Live(bs) && Live(cs) == Live(bs) - {b} + {f}
    ensures Payloads(cs, ITEM_SIZE) == Payloads(bs, ITEM_SIZE) - {b.start + ITEM_SIZE} + {f.start + ITEM_SIZE}
  {
    PayloadsSwapped(bs, cs, {b}, {f}, ITEM_SIZE, 0, tail);
    assert Offsets({b}, ITEM_SIZE) == {b.start + ITEM_SIZE} && Offsets({f}, ITEM_SIZE) == {f.start + ITEM_SIZE};
  }

  lemma AllocPayloads(items: Items, bs: seq<Block>, frees: seq<int>, available: int, size: nat, cs: seq<Block>,
                      p: Pointer,
                      frees': seq<int>, tail: nat)
    requires Tiles(bs, 0, tail) && AllocDone(items, frees, Live(bs), available, size, p, frees', Live(cs))
    ensures Payloads(cs, ITEM_SIZE) == Payloads(bs, ITEM_SIZE) + if p.Null? then {} else {p.offset}
  {
    if p.At? {
      var f := Placed(items, frees[FirstFree(items, frees, size)], size);
      PayloadsSwapped(bs, cs, {}, {f}, ITEM_SIZE, 0, tail);
      assert Offsets({f}, ITEM_SIZE) == {p.offset};
    }
  }

  lemma MovePayloads(items: Items, bs: seq<Block>, frees: seq<int>, available: int, b: Block, n: nat, p: Pointer,
                     cs: seq<Block>,
                     tail: nat)
    requires Chain(items, bs, tail, 0, tail) && Tiles(bs, 0, tail) && b in Live(bs) && Elements(frees) == FreeStarts(bs)
    requires MoveDone(items, bs, frees, available, b, n, p, Live(cs))
    ensures Payloads(cs, ITEM_SIZE) ==
            if p.At? then Payloads(bs, ITEM_SIZE) - {b.start + ITEM_SIZE} + {p.offset} else Payloads(bs, ITEM_SIZE)
  {
    if p.At? {
      var g := frees[FirstFree(items, frees, n)];
      assert g in Elements(frees);
      PlacedIsNew(items, bs, tail, g, n);
      var f := Placed(items, g, n);
      assert Live(bs) + {f} - {b} == Live(bs) - {b} + {f};
      OneSwapped(bs, cs, b, f, tail);
    }
  }

  lemma ReallocPayloads(items: Items, bs: seq<Block>, frees: seq<int>, available: int, i: nat, request: nat, p: Pointer,
                        frees': seq<int>, cs: seq<Block>, tail: nat)
    requires Chain(items, bs, tail, 0, tail) && Tiles(bs, 0, tail) && Elements(frees) == FreeStarts(bs)
    requires i < |bs| && bs[i].used
    requires ReallocDone(items, bs, frees, available, At(bs[i].start + ITEM_SIZE), i, request, p, frees', Live(cs))
    ensures var rest := Payloads(bs, ITEM_SIZE) - {bs[i].start + ITEM_SIZE};
            Payloads(cs, ITEM_SIZE) ==
            if p.At? then rest + {p.offset} else if request == 0 then rest else Payloads(bs, ITEM_SIZE)
  {
    var b, n := bs[i], Requested(request);
    var size, cut := b.end - b.start - ITEM_SIZE, Block(b.start, b.start + ITEM_SIZE + n, true);
    if request == 0 {
      OneGone(bs, cs, b, tail);
    } else if n > size && !Growable(bs, i, n) {
      MovePayloads(items, bs, frees, available, b, n, p, cs, tail);
    } else if n <= size <= n + ITEM_SIZE + MIN_ALLOC {
      assert b.start + ITEM_SIZE in Payloads(bs, ITEM_SIZE);
      OutAndIn(Payloads(bs, ITEM_SIZE), b.start + ITEM_SIZE);
    } else {
      OneSwapped(bs, cs, b, cut, tail);
    }
  }

  lemma OutAndIn(s: set<int>, x: int)
    requires x in s
    ensures s - {x} + {x} == s
  {
  }

  lemma OwnerIndex(bs: seq<Block>, p: int) returns (i: nat)
    requires p in Payloads(bs, ITEM_SIZE)
    ensures i < |bs| && bs[i].used && p == bs[i].start + ITEM_SIZE
  {
    var b :| b in Live(bs) && b.start + ITEM_SIZE == p;
    i :| 0 <= i < |bs| && bs[i] == b;
  }

  /** Any requests in any order from a new heap on, each about a payload that is held: what is
      held is exactly what is in use, and no byte of the pool is lost. */
  method Run(size: nat, requests: seq<Request>) returns (h: Heap, held: set<int>)
    requires 2 * ITEM_SIZE <= size / ALIGN_SIZE * ALIGN_SIZE && forall r :: r in requests ==> Askable(r)
    ensures h.Valid() && held == Payloads(h.blocks, ITEM_SIZE)
    ensures Sum(h.blocks, true, 0) + h.available + ITEM_SIZE * FreeCount(h.blocks) == h.Tail()
  {
    h := new Heap(size);
    held := {};
    for i := 0 to |requests|
      invariant h.Valid() && fresh(h) && fresh(h.data) && held == Payloads(h.blocks, ITEM_SIZE)
    {
      held := Serve(h, requests[i], held);
    }
    Conservation(h);
  }

  method Serve(h: Heap, r: Request, held: set<int>) returns (after: set<int>)
    requires h.Valid() && Askable(r) && held == Payloads(h.blocks, ITEM_SIZE)
    modifies h, h.data
    ensures h.Valid() && after == Payloads(h.blocks, ITEM_SIZE)
  {
    after := held;
    match r {
      case Ask(size) => after := ServeAsk(h, size, held);
      case Give(p) => if p in held { after := ServeGive(h, p, held); }
      case Alter(p, size) => if p in held { after := ServeAlter(h, p, size, held); }
    }
  }

  method ServeAsk(h: Heap, size: nat, held: set<int>) returns (after: set<int>)
    requires h.Valid() && size <= MAX_SIZE - (ALIGN_SIZE - 1) && held == Payloads(h.blocks, ITEM_SIZE)
    modifies h
    ensures h.Valid() && after == Payloads(h.blocks, ITEM_SIZE)
  {
    ghost var items, bs, frees, available, tail := h.items, h.blocks, h.frees, h.available, h.Tail();
    LayoutTiles(items, bs, tail);
    var p := h.Alloc(size);
    AllocPayloads(items, bs, frees, available, Requested(size), h.blocks, p, h.frees, tail);
    after := if p.At? then held + {p.offset} else held;
  }

  method ServeGive(h: Heap, p: int, held: set<int>) returns (after: set<int>)
    requires h.Valid() && p in held && held == Payloads(h.blocks, ITEM_SIZE)
    modifies h
    ensures h.Valid() && after == Payloads(h.blocks, ITEM_SIZE)
  {
    ghost var bs, tail := h.blocks, h.Tail();
    LayoutTiles(h.items, bs, tail);
    ghost var i := OwnerIndex(bs, p);
    h.Free(At(p), i);
    OneGone(bs, h.blocks, bs[i], tail);
    after := held - {p};
  }

  method ServeAlter(h: Heap, p: int, size: nat, held: set<int>) returns (after: set<int>)
    requires h.Valid() && p in held && size <= MAX_SIZE - (ALIGN_SIZE - 1) && held == Payloads(h.blocks, ITEM_SIZE)
    modifies h, h.data
    ensures h.Valid() && after == Payloads(h.blocks, ITEM_SIZE)
  {
    ghost var items, bs, frees, available, tail := h.items, h.blocks, h.frees, h.available, h.Tail();
    LayoutTiles(items, bs, tail);
    ghost var i := OwnerIndex(bs, p);
    var q := h.Realloc(At(p), size, i);
    ReallocPayloads(items, bs, frees, available, i, size, q, h.frees, h.blocks, tail);
    after := if q.At? then held - {p} + {q.offset} else if size == 0 then held - {p} else held;
  }

  lemma LayoutTiles(items: Items, bs: seq<Block>, tail: nat)
    requires Chain(items, bs, tail, 0, tail) && 0 < tail
    ensures Tiles(bs, 0, tail)
  {
    EndOrMore(items, bs, tail, 0, tail);
    ChainTiles(items, bs, tail, 0, tail);
  }

  lemma OneGone(bs: seq<Block>, cs: seq<Block>, b: Block, tail: nat)
    requires Tiles(bs, 0, tail) && b in Live(bs) && Live(cs) == Live(bs) - {b}
    ensures Payloads(cs, ITEM_SIZE) == Payloads(bs, ITEM_SIZE) - {b.start + ITEM_SIZE}
  {
    PayloadsSwapped(bs, cs, {b}, {}, ITEM_SIZE, 0, tail);
    assert Offsets({b}, ITEM_SIZE) == {b.start + ITEM_SIZE};
  }

  /** An allocation and the matching free restore the block layout and the byte
      count; the free list may come back in another order. */
  method AllocFree(h: Heap, request: nat)
    requires h.Valid() && request <= MAX_SIZE - (ALIGN_SIZE - 1)
    modifies h
    ensures h.Valid() && h.blocks == old(h.blocks) && h.available == old(h.available)
    ensures Elements(h.frees) == old(Elements(h.frees))
  {
    ghost var bs, items, size, tail := h.blocks, h.items, Requested(request), h.Tail();
    ghost var j := FirstFree(items, h.frees, size);
    EndOrMore(items, bs, tail, 0, tail);
    ChainTiles(items, bs, tail, 0, tail);
    if j < |h.frees| {
      assert h.frees[j] in Elements(h.frees);
      PlacedIsNew(items, bs, tail, h.frees[j], size);
    }
    ghost var b := if j < |h.frees| then Placed(items, h.frees[j], size) else Block(0, 0, true);
    var p := h.Alloc(request);
    if p != Null {
      assert b in Live(h.blocks);
      ghost var k :| 0 <= k < |h.blocks| && h.blocks[k] == b;
      h.Free(p, k);
      EndOrMore(h.items, h.blocks, tail, 0, tail);
      ChainTiles(h.items, h.blocks, tail, 0, tail);
      CoalescedIsCanonical(h.blocks, bs, 0, tail);
    }
  }
}
