/** The slab heap (slab.c): small requests come from zones of equal chunks, large ones from
    whole pages, and page descriptors tell a freed address which of the two it was.

    The invariant is kept in pieces, each the set of zones, buckets or pages that break it:
    all are empty in a sound state, and a step is proved one zone, bucket or page at a time. */
module Slab {
  import opened Arithmetic
  import opened MemRoutines
  import opened PageList
  import opened Sequences
  import opened SlabLayout
  import opened Zones

  const RELEASE_THRESHOLD: nat := 2

  datatype UsageType = Unused | Small | LargePages

  /** A page descriptor: pages allocated, or the page's distance from its zone. */
  datatype Usage = Usage(kind: UsageType, size: nat)

  /** A zone header: free chunks in all, chunks it has room for, the last chunk handed out
      from fresh room, chunk size, bucket, and the addresses of chunks given back. */
  datatype Zone = Zone(nfree: nat, nmax: nat, uindex: nat, size: nat, index: nat, base: nat, free: seq<nat>)

  datatype Pointer = Null | To(addr: nat)

  /** The heap at one moment; the proof also knows the chunks in use in each zone. */
  datatype State = State(
    npages: nat, zonePages: nat, layout: Layout,
    zones: map<nat, Zone>, taken: map<nat, set<nat>>, buckets: map<nat, seq<nat>>, spares: seq<nat>,
    usage: seq<Usage>)

  // Zones

  /** Chunks up to uindex are given back or in use, and the free count is right. */
  ghost predicate ZoneAt(zonePages: nat, z: nat, c: Zone, used: set<nat>) {
    && c.index < NZONES && c.size == ChunkSize(c.index) && Served(zonePages, c.size)
    && c.nmax == Count(zonePages, c.size) && c.base == z * PAGE + Offset(c.size) && c.uindex < c.nmax
    && c.nfree == (c.nmax - 1 - c.uindex) + |c.free|
    && Distinct(c.free) && Elements(c.free) !! used && Elements(c.free) + used == Chunks(z, c.size, c.uindex + 1)
  }

  ghost function BadZones(zonePages: nat, zones: map<nat, Zone>, taken: map<nat, set<nat>>): set<nat> {
    set z | z in zones && !(z in taken && ZoneAt(zonePages, z, zones[z], taken[z]))
  }

  lemma ZoneOf(zonePages: nat, zones: map<nat, Zone>, taken: map<nat, set<nat>>, z: nat)
    requires BadZones(zonePages, zones, taken) == {} && z in zones
    ensures z in taken && ZoneAt(zonePages, z, zones[z], taken[z])
  {
    assert z !in BadZones(zonePages, zones, taken);
  }

  lemma ZonesStep(zonePages: nat, zones: map<nat, Zone>, taken: map<nat, set<nat>>, z: nat, c: Zone, used: set<nat>)
    requires BadZones(zonePages, zones, taken) == {} && ZoneAt(zonePages, z, c, used)
    ensures BadZones(zonePages, zones[z := c], taken[z := used]) == {}
  {
    var zones', taken' := zones[z := c], taken[z := used];
    forall x | x in zones' ensures x in taken' && ZoneAt(zonePages, x, zones'[x], taken'[x]) {
      if x != z {
        ZoneOf(zonePages, zones, taken, x);
      }
    }
  }

  lemma ZonesDrop(zonePages: nat, zones: map<nat, Zone>, taken: map<nat, set<nat>>, z: nat)
    requires BadZones(zonePages, zones, taken) == {}
    ensures BadZones(zonePages, zones - {z}, taken - {z}) == {}
  {
    forall x | x in zones - {z} ensures x in taken - {z} && ZoneAt(zonePages, x, zones[x], taken[x]) {
      ZoneOf(zonePages, zones, taken, x);
    }
  }

  /** A zone's free count is what is left of its chunks. */
  lemma FreeCount(zonePages: nat, z: nat, c: Zone, used: set<nat>)
    requires ZoneAt(zonePages, z, c, used)
    ensures c.nfree + |used| == c.nmax
    ensures c.nfree == c.nmax <==> used == {}
  {
    DistinctCount(c.free);
    ChunksCount(z, c.size, c.uindex + 1);
    assert |Elements(c.free) + used| == |Elements(c.free)| + |used|;
  }

  /** A chunk from fresh room. */
  function FreshTaken(c: Zone): Zone
    requires c.nfree > 0
  {
    c.(nfree := c.nfree - 1, uindex := c.uindex + 1)
  }

  lemma TakeFresh(zonePages: nat, z: nat, c: Zone, used: set<nat>)
    requires ZoneAt(zonePages, z, c, used) && c.uindex + 1 != c.nmax && c.nfree > 0
    ensures var a := c.base + (c.uindex + 1) * c.size;
            a == Address(z, c.size, c.uindex + 1) && a !in used && ZoneAt(zonePages, z, FreshTaken(c), used + {a})
  {
    NextChunkNew(z, c.size, c.uindex + 1);
  }

  /** The chunk given back last. */
  function ReusedTaken(c: Zone): Zone
    requires c.nfree > 0 && c.free != []
  {
    c.(nfree := c.nfree - 1, free := c.free[1..])
  }

  lemma TakeReused(zonePages: nat, z: nat, c: Zone, used: set<nat>)
    requires ZoneAt(zonePages, z, c, used) && c.uindex + 1 == c.nmax && c.nfree > 0
    ensures c.free != []
    ensures var a := c.free[0]; a !in used && ZoneAt(zonePages, z, ReusedTaken(c), used + {a})
  {
    HeadFacts(c.free);
    assert c.free[0] in Elements(c.free);
  }

  /** A chunk given back. */
  function GivenBack(c: Zone, a: nat): Zone {
    c.(nfree := c.nfree + 1, free := [a] + c.free)
  }

  lemma GiveBack(zonePages: nat, z: nat, c: Zone, used: set<nat>, a: nat)
    requires ZoneAt(zonePages, z, c, used) && a in used
    ensures ZoneAt(zonePages, z, GivenBack(c, a), used - {a}) && c.nfree < c.nmax
  {
    FreeCount(zonePages, z, c, used);
    assert a !in Elements(c.free);
    assert ([a] + c.free)[1..] == c.free;
    assert Elements([a] + c.free) == Elements(c.free) + {a};
  }

  /** A new zone with its first chunk in use. */
  function NewZone(zonePages: nat, z: nat, index: nat, size: nat): Zone
    requires size > 0 && Count(zonePages, size) > 0
  {
    var nmax := Count(zonePages, size);
    Zone(nmax - 1, nmax, 0, size, index, z * PAGE + Offset(size), [])
  }

  lemma NewZoneAt(zonePages: nat, z: nat, index: nat, size: nat)
    requires index < NZONES && size == ChunkSize(index) && Served(zonePages, size)
    ensures Count(zonePages, size) > 1
    ensures var c := NewZone(zonePages, z, index, size);
            c.nfree > 0 && c.base + 0 * size == Address(z, size, 0) && ZoneAt(zonePages, z, c, {c.base})
  {
    Geometry(zonePages, size);
    assert Chunks(z, size, 1) == Chunks(z, size, 0) + {Address(z, size, 0)};
  }

  // Buckets

  /** Bucket zi lists, once each, the zones of index zi that have a free chunk. */
  ghost predicate BucketAt(zones: map<nat, Zone>, list: seq<nat>, zi: nat) {
    && Distinct(list)
    && forall z :: z in list <==> z in zones && zones[z].index == zi && zones[z].nfree > 0
  }

  ghost function BadBuckets(zones: map<nat, Zone>, buckets: map<nat, seq<nat>>): set<nat> {
    set zi | zi in buckets && !BucketAt(zones, buckets[zi], zi)
  }

  lemma BucketOf(zones: map<nat, Zone>, buckets: map<nat, seq<nat>>, zi: nat)
    requires BadBuckets(zones, buckets) == {} && zi in buckets
    ensures BucketAt(zones, buckets[zi], zi)
  {
    assert zi !in BadBuckets(zones, buckets);
  }

  /** One zone and its bucket's list change. */
  lemma BucketsStep(zones: map<nat, Zone>, buckets: map<nat, seq<nat>>, zones': map<nat, Zone>, zi: nat, z: nat,
                    list: seq<nat>)
    requires BadBuckets(zones, buckets) == {} && zi in buckets && BucketAt(zones', list, zi)
    requires z in zones ==> zones[z].index == zi
    requires z in zones' ==> zones'[z].index == zi
    requires forall x :: x != z ==> ((x in zones <==> x in zones') && (x in zones ==> zones'[x] == zones[x]))
    ensures BadBuckets(zones', buckets[zi := list]) == {}
  {
    var buckets' := buckets[zi := list];
    forall y | y in buckets' ensures BucketAt(zones', buckets'[y], y) {
      if y != zi {
        BucketOf(zones, buckets, y);
      }
    }
  }

  // Page descriptors

  /** The pages of a zone, spare or not, tell how far they are from its start; the first page
      of a large block tells how many there are. */
  ghost predicate UsageAt(regions: map<nat, Region>, usage: seq<Usage>, r: nat)
    requires r in regions
  {
    var n := regions[r].count;
    match regions[r].kind
    case Table => true
    case Large => r < |usage| && usage[r] == Usage(LargePages, n)
    case InUse => forall p: nat :: Within(p, r, n) ==> p < |usage| && usage[p] == Usage(Small, p - r)
    case Spare => forall p: nat :: Within(p, r, n) ==> p < |usage| && usage[p] == Usage(Small, p - r)
  }

  ghost function BadUsage(regions: map<nat, Region>, usage: seq<Usage>): set<nat> {
    set r | r in regions && !UsageAt(regions, usage, r)
  }

  lemma UsageOf(regions: map<nat, Region>, usage: seq<Usage>, r: nat)
    requires BadUsage(regions, usage) == {} && r in regions
    ensures UsageAt(regions, usage, r)
  {
    assert r !in BadUsage(regions, usage);
  }

  /** Writing the descriptors of one region leaves the others alone. */
  lemma UsageKept(l: Layout, npages: nat, usage: seq<Usage>, usage': seq<Usage>, start: nat, r: nat)
    requires Partitioned(l, npages) && start in l.regions && r in l.regions && r != start && |usage'| == |usage|
    requires forall p: nat :: p < |usage| && !Within(p, start, l.regions[start].count) ==> usage'[p] == usage[p]
    requires UsageAt(l.regions, usage, r)
    ensures UsageAt(l.regions, usage', r)
  {
    RegionOf(l, r);
    forall p: nat | Within(p, r, l.regions[r].count) ensures !Within(p, start, l.regions[start].count) {
      PageIn(l, r, p);
      if Within(p, start, l.regions[start].count) {
        PageIn(l, start, p);
      }
    }
    assert Within(r, r, l.regions[r].count);
  }

  ghost function Marked(usage: seq<Usage>, z: nat, n: nat, kind: UsageType): seq<Usage> {
    seq(|usage|, p requires 0 <= p < |usage| =>
      if Within(p, z, n) then (if kind == Small then Usage(Small, p - z) else Usage(Unused, 0)) else usage[p])
  }

  // The invariant

  ghost function Starts(regions: map<nat, Region>, kind: Kind): set<nat> {
    set r | r in regions && regions[r].kind == kind
  }

  /** Zones that are not as large as zones are. */
  ghost function OddZones(regions: map<nat, Region>, zonePages: nat): set<nat> {
    set r | r in regions && regions[r].kind in {InUse, Spare} && regions[r].count != zonePages
  }

  ghost predicate Sound(s: State) {
    && s.zonePages in {8, 16, 32} && |s.usage| == s.npages && Partitioned(s.layout, s.npages)
    && s.zones.Keys == Starts(s.layout.regions, InUse) && s.taken.Keys == s.zones.Keys
    && Distinct(s.spares) && Elements(s.spares) == Starts(s.layout.regions, Spare)
    && OddZones(s.layout.regions, s.zonePages) == {}
    && BadUsage(s.layout.regions, s.usage) == {}
    && BadZones(s.zonePages, s.zones, s.taken) == {}
    && BadBuckets(s.zones, s.buckets) == {} && s.buckets.Keys == Elements(Indices(NZONES))
  }

  /** The invariant as a set too, so that it is unfolded only where Intact or AllIntact says so:
      the state itself, if it is not sound. */
  ghost function Broken(s: State): set<State> {
    set x | x in {s} && !Sound(x)
  }

  lemma Intact(s: State)
    requires Broken(s) == {}
    ensures Sound(s)
  {
    assert s !in Broken(s);
  }

  lemma AllIntact(s: State)
    requires Sound(s)
    ensures Broken(s) == {}
  {
  }

  function Indices(n: nat): seq<nat> {
    seq(n, i requires 0 <= i => i)
  }

  lemma HasBucket(s: State, zi: nat)
    requires s.buckets.Keys == Elements(Indices(NZONES)) && zi < NZONES
    ensures zi in s.buckets
  {
    assert Indices(NZONES)[zi] == zi;
  }

  lemma RegionSize(s: State, z: nat)
    requires OddZones(s.layout.regions, s.zonePages) == {} && z in s.layout.regions
    requires s.layout.regions[z].kind in {InUse, Spare}
    ensures s.layout.regions[z].count == s.zonePages
  {
    assert z !in OddZones(s.layout.regions, s.zonePages);
  }

  /** The addresses handed out and not given back. */
  ghost function Live(s: State): set<nat> {
    (set z, a | z in s.taken && a in s.taken[z] :: a) + (set r | r in Starts(s.layout.regions, Large) :: r * PAGE)
  }

  lemma LiveSame(s: State, s': State)
    requires s'.taken == s.taken && Starts(s'.layout.regions, Large) == Starts(s.layout.regions, Large)
    ensures Live(s') == Live(s)
  {
  }

  // Looking up an address

  /** A chunk in use lies in a page of its zone, whose descriptor leads back to the zone. */
  lemma FindZone(s: State, z: nat, a: nat)
    requires Sound(s) && z in s.taken && a in s.taken[z]
    ensures z in s.zones && z <= a / PAGE < z + s.zonePages && a / PAGE < |s.usage|
    ensures s.usage[a / PAGE] == Usage(Small, a / PAGE - z)
  {
    ZoneOf(s.zonePages, s.zones, s.taken, z);
    var c := s.zones[z];
    var k := ChunkIndex(z, c.size, c.uindex + 1, a);
    ChunkPage(z, s.zonePages, c.size, k);
    RegionSize(s, z);
    UsageOf(s.layout.regions, s.usage, z);
    assert Within(a / PAGE, z, s.zonePages);
  }

  lemma FindLarge(s: State, r: nat)
    requires Sound(s) && r in s.layout.regions && s.layout.regions[r].kind == Large
    ensures (r * PAGE) / PAGE == r && r < |s.usage| && s.usage[r] == Usage(LargePages, s.layout.regions[r].count)
  {
    MultipleMod(r, PAGE);
    UsageOf(s.layout.regions, s.usage, r);
  }

  /** So the descriptor of a live address tells which of the two kinds it is. */
  lemma FindLive(s: State, a: nat) returns (small: bool, r: nat)
    requires Sound(s) && a in Live(s)
    ensures a / PAGE < |s.usage| && (small <==> s.usage[a / PAGE].kind == Small)
    ensures small ==> r in s.taken && a in s.taken[r] && r in s.zones && a / PAGE - s.usage[a / PAGE].size == r
    ensures !small ==> r in s.layout.regions && s.layout.regions[r].kind == Large && a == r * PAGE && a / PAGE == r
    ensures !small ==> s.usage[r] == Usage(LargePages, s.layout.regions[r].count)
  {
    if z :| z in s.taken && a in s.taken[z] {
      small, r := true, z;
      FindZone(s, z, a);
    } else {
      small := false;
      r :| r in Starts(s.layout.regions, Large) && r * PAGE == a;
      FindLarge(s, r);
    }
  }

  /** The size of the block at a live address, found the way a free finds it. */
  ghost function SizeAt(s: State, a: nat): nat {
    if a / PAGE >= |s.usage| then 0
    else
      var u := s.usage[a / PAGE];
      if u.kind != Small then u.size * PAGE
      else if u.size <= a / PAGE && a / PAGE - u.size in s.zones then s.zones[a / PAGE - u.size].size else 0
  }

  /** The blocks handed out: address and size. */
  ghost function Blocks(s: State): map<nat, nat> {
    map a | a in Live(s) :: SizeAt(s, a)
  }

  lemma SizeOfChunk(s: State, z: nat, a: nat)
    requires Sound(s) && z in s.taken && a in s.taken[z]
    ensures z in s.zones && a in Live(s) && SizeAt(s, a) == s.zones[z].size
  {
    FindZone(s, z, a);
  }

  lemma SizeOfLarge(s: State, r: nat)
    requires Sound(s) && r in Starts(s.layout.regions, Large)
    ensures r in s.layout.regions && r * PAGE in Live(s) && SizeAt(s, r * PAGE) == s.layout.regions[r].count * PAGE
  {
    FindLarge(s, r);
  }

  /** All blocks but the one at a are where they were. */
  ghost predicate Carries(s: State, s': State, a: int) {
    && (forall z, b :: z in s.taken && z in s.zones && b in s.taken[z] && b != a ==>
          z in s'.taken && b in s'.taken[z] && z in s'.zones && s'.zones[z].size == s.zones[z].size)
    && (forall r :: r in s.layout.regions && s.layout.regions[r].kind == Large && r * PAGE != a ==>
          r in s'.layout.regions && s'.layout.regions[r] == s.layout.regions[r])
  }

  lemma Carried(s: State, s': State, a: int)
    requires Sound(s) && Sound(s') && Carries(s, s', a)
    ensures forall b :: b in Live(s) && b != a ==> b in Live(s') && SizeAt(s', b) == SizeAt(s, b)
  {
    forall b | b in Live(s) && b != a ensures b in Live(s') && SizeAt(s', b) == SizeAt(s, b) {
      var small, r := FindLive(s, b);
      if small {
        SizeOfChunk(s, r, b);
        SizeOfChunk(s', r, b);
      } else {
        SizeOfLarge(s, r);
        assert r in Starts(s'.layout.regions, Large);
        SizeOfLarge(s', r);
      }
    }
  }

  lemma BlockAdded(s: State, s': State, a: nat, n: nat)
    requires Sound(s) && Sound(s') && Carries(s, s', a) && Live(s') == Live(s) + {a} && a !in Live(s)
    requires SizeAt(s', a) == n
    ensures Blocks(s') == Blocks(s)[a := n]
  {
    Carried(s, s', a);
  }

  lemma BlockRemoved(s: State, s': State, a: nat)
    requires Sound(s) && Sound(s') && Carries(s, s', a) && Live(s') == Live(s) - {a}
    ensures Blocks(s') == Blocks(s) - {a}
  {
    Carried(s, s', a);
  }

  lemma BlocksSame(s: State, s': State)
    requires Sound(s) && Sound(s') && Carries(s, s', -1) && Live(s') == Live(s)
    ensures Blocks(s') == Blocks(s)
  {
    Carried(s, s', -1);
  }

  /** A live block's page belongs to a zone in use or to a large block. */
  lemma LiveOwner(s: State, a: nat)
    requires Sound(s) && a in Live(s)
    ensures a / PAGE in s.layout.owner && s.layout.owner[a / PAGE] >= 0
    ensures var r: nat := s.layout.owner[a / PAGE]; r in s.layout.regions && s.layout.regions[r].kind in {InUse, Large}
  {
    var small, r := FindLive(s, a);
    if small {
      FindZone(s, r, a);
      assert r in Starts(s.layout.regions, InUse);
      RegionSize(s, r);
    } else {
      RegionOf(s.layout, r);
    }
    assert Within(a / PAGE, r, s.layout.regions[r].count);
    PageIn(s.layout, r, a / PAGE);
  }

  /** The bytes of a live block. */
  ghost function SizeOf(s: State, r: nat): nat
    requires r in s.layout.regions
  {
    if r in s.zones then s.zones[r].size else s.layout.regions[r].count * PAGE
  }

  /** A live block of region r is inside the pages of r. */
  ghost predicate BlockOf(s: State, r: nat, a: nat) {
    r in s.layout.regions &&
    if s.layout.regions[r].kind == Large then a == r * PAGE else r in s.taken && a in s.taken[r]
  }

  lemma BlockInside(s: State, r: nat, a: nat)
    requires Sound(s) && BlockOf(s, r, a)
    ensures r * PAGE <= a && a + SizeOf(s, r) <= (r + s.layout.regions[r].count) * PAGE
  {
    if s.layout.regions[r].kind != Large {
      ZoneOf(s.zonePages, s.zones, s.taken, r);
      RegionSize(s, r);
      var c := s.zones[r];
      var k := ChunkIndex(r, c.size, c.uindex + 1, a);
      ChunkInside(r, s.zonePages, c.size, k);
    }
  }

  lemma RegionsApart(l: Layout, npages: nat, q: nat, r: nat)
    requires Partitioned(l, npages) && q in l.regions && r in l.regions && q < r
    ensures q + l.regions[q].count <= r
  {
    RegionOf(l, q);
    RegionOf(l, r);
    assert l.owner[r] == r;
    if Within(r, q, l.regions[q].count) {
      PageIn(l, q, r);
    }
  }

  /** Two live blocks never overlap. */
  lemma LiveApart(s: State, q: nat, a: nat, r: nat, b: nat)
    requires Sound(s) && BlockOf(s, q, a) && BlockOf(s, r, b) && a != b
    ensures a + SizeOf(s, q) <= b || b + SizeOf(s, r) <= a
  {
    BlockInside(s, q, a);
    BlockInside(s, r, b);
    if q < r {
      RegionsApart(s.layout, s.npages, q, r);
    } else if r < q {
      RegionsApart(s.layout, s.npages, r, q);
    } else {
      ZoneOf(s.zonePages, s.zones, s.taken, q);
      var c := s.zones[q];
      var j := ChunkIndex(q, c.size, c.uindex + 1, a);
      var k := ChunkIndex(q, c.size, c.uindex + 1, b);
      if j < k {
        ChunksApart(q, c.size, j, k);
      } else {
        ChunksApart(q, c.size, k, j);
      }
    }
  }

  /** Every block lies within the heap. */
  lemma BlockInHeap(s: State, a: nat)
    requires Broken(s) == {} && a in Blocks(s)
    ensures a + Blocks(s)[a] <= s.npages * PAGE
  {
    Intact(s);
    var r := BlockRegion(s, a);
    BlockInside(s, r, a);
    var last := r + s.layout.regions[r].count - 1;
    RegionOf(s.layout, r);
    PageIn(s.layout, r, last);
    assert Within(last, 0, s.npages);
  }

  /** In terms of what was handed out: blocks never overlap. */
  lemma BlocksApart(s: State, a: nat, b: nat)
    requires Broken(s) == {} && a in Blocks(s) && b in Blocks(s) && a != b
    ensures a + Blocks(s)[a] <= b || b + Blocks(s)[b] <= a
  {
    Intact(s);
    var q := BlockRegion(s, a);
    var r := BlockRegion(s, b);
    LiveApart(s, q, a, r, b);
  }

  lemma BlockRegion(s: State, a: nat) returns (r: nat)
    requires Sound(s) && a in Live(s)
    ensures BlockOf(s, r, a) && SizeOf(s, r) == SizeAt(s, a)
  {
    var small;
    small, r := FindLive(s, a);
    if small {
      SizeOfChunk(s, r, a);
      assert r in Starts(s.layout.regions, InUse);
    } else {
      SizeOfLarge(s, r);
      assert r !in Starts(s.layout.regions, InUse);
    }
  }

  /** A zone that is in use is in its bucket exactly as long as it has a free chunk, and its
      free count is fresh room plus chunks given back. */
  lemma ZoneBooks(s: State, z: nat)
    requires Sound(s) && z in s.zones
    ensures var c := s.zones[z];
            && z in s.taken && c.index in s.buckets && (z in s.buckets[c.index] <==> c.nfree > 0)
            && c.nfree == (c.nmax - 1 - c.uindex) + |c.free| && c.nfree + |s.taken[z]| == c.nmax
  {
    ZoneOf(s.zonePages, s.zones, s.taken, z);
    HasBucket(s, s.zones[z].index);
    BucketOf(s.zones, s.buckets, s.zones[z].index);
    FreeCount(s.zonePages, z, s.zones[z], s.taken[z]);
  }

  // The steps

  lemma StartsGranted(regions: map<nat, Region>, r: nat, g: Region, kind: Kind)
    ensures Starts(regions[r := g], kind) == if g.kind == kind then Starts(regions, kind) + {r}
            else Starts(regions, kind) - {r}
  {
  }

  /** A region that was none becomes one of kind g. */
  lemma RegionAdded(regions: map<nat, Region>, zonePages: nat, r: nat, g: Region)
    requires OddZones(regions, zonePages) == {} && (g.kind in {InUse, Spare} ==> g.count == zonePages) && r !in regions
    ensures OddZones(regions[r := g], zonePages) == {}
    ensures forall kind :: Starts(regions[r := g], kind) == if g.kind == kind then Starts(regions, kind) + {r}
            else Starts(regions, kind)
  {
    OddGranted(regions, zonePages, r, g);
  }

  lemma StartsDropped(regions: map<nat, Region>, r: nat, kind: Kind)
    ensures Starts(regions - {r}, kind) == Starts(regions, kind) - {r}
  {
  }

  lemma OddGranted(regions: map<nat, Region>, zonePages: nat, r: nat, g: Region)
    requires OddZones(regions, zonePages) == {} && (g.kind in {InUse, Spare} ==> g.count == zonePages)
    ensures OddZones(regions[r := g], zonePages) == {}
  {
    var regions' := regions[r := g];
    forall x | x in regions' ensures x !in OddZones(regions', zonePages) {
      assert x !in OddZones(regions, zonePages);
    }
  }

  lemma OddDropped(regions: map<nat, Region>, zonePages: nat, r: nat)
    requires OddZones(regions, zonePages) == {}
    ensures OddZones(regions - {r}, zonePages) == {}
  {
    forall x | x in regions - {r} ensures x !in OddZones(regions - {r}, zonePages) {
      assert x !in OddZones(regions, zonePages);
    }
  }

  /** A large block handed out. */
  ghost function LargeOut(s: State, r: nat, n: nat, runs: seq<Run>): State
    requires r < |s.usage|
  {
    s.(layout := Granted(s.layout, r, n, Large, runs), usage := s.usage[r := Usage(LargePages, n)])
  }

  lemma PageExists(s: State, p: nat)
    requires Sound(s) && p in Pages(s.layout.runs)
    ensures p < |s.usage|
  {
    assert p in Unowned(s.layout.owner) && p in s.layout.owner;
    assert Within(p, 0, s.npages);
  }

  /** The descriptor of the first page of a large block. */
  lemma LargeUsage(s: State, r: nat, n: nat, runs: seq<Run>)
    requires Sound(s) && n > 0 && r < |s.usage| && r !in s.layout.regions
    requires Partitioned(Granted(s.layout, r, n, Large, runs), s.npages)
    ensures BadUsage(LargeOut(s, r, n, runs).layout.regions, LargeOut(s, r, n, runs).usage) == {}
  {
    UsageGranted(s, LargeOut(s, r, n, runs), r, n);
  }

  lemma LargeLive(s: State, r: nat, n: nat, runs: seq<Run>)
    requires r < |s.usage|
    requires Starts(s.layout.regions[r := Region(Large, n)], Large) == Starts(s.layout.regions, Large) + {r}
    ensures Live(LargeOut(s, r, n, runs)) == Live(s) + {r * PAGE}
  {
  }

  lemma LargeOutKeeps(s: State, r: nat, n: nat, runs: seq<Run>)
    requires Sound(s) && n > 0 && Extent(r, n) <= Pages(s.layout.runs)
    requires Canonical(runs, 0) && Pages(runs) == Pages(s.layout.runs) - Extent(r, n)
    ensures r < |s.usage| && Sound(LargeOut(s, r, n, runs))
    ensures r !in s.layout.regions && Live(LargeOut(s, r, n, runs)) == Live(s) + {r * PAGE}
  {
    assert Within(r, r, n) && r in Pages(s.layout.runs);
    PageExists(s, r);
    GrantKeeps(s.layout, s.npages, r, n, Large, runs);
    RegionAdded(s.layout.regions, s.zonePages, r, Region(Large, n));
    LargeUsage(s, r, n, runs);
    LargeLive(s, r, n, runs);
  }

  lemma UsageGranted(s: State, s': State, r: nat, n: nat)
    requires BadUsage(s.layout.regions, s.usage) == {} && |s'.usage| == |s.usage|
    requires Partitioned(s'.layout, s.npages) && r in s'.layout.regions && s'.layout.regions[r].count == n
    requires s'.layout.regions == s.layout.regions[r := s'.layout.regions[r]]
    requires UsageAt(s'.layout.regions, s'.usage, r)
    requires forall p: nat :: p < |s.usage| && !Within(p, r, n) ==> s'.usage[p] == s.usage[p]
    ensures BadUsage(s'.layout.regions, s'.usage) == {}
  {
    forall x | x in s'.layout.regions ensures x !in BadUsage(s'.layout.regions, s'.usage) {
      if x != r {
        UsageOf(s.layout.regions, s.usage, x);
        assert UsageAt(s'.layout.regions, s.usage, x);
        UsageKept(s'.layout, s.npages, s.usage, s'.usage, r, x);
      }
    }
  }

  /** A large block given back; its descriptor keeps its type. */
  ghost function LargeBack(s: State, r: nat, runs: seq<Run>): State
    requires r in s.layout.regions && r < |s.usage|
  {
    s.(layout := Returned(s.layout, r, runs), usage := s.usage[r := s.usage[r].(size := 0)])
  }

  lemma LargeBackKeeps(s: State, r: nat, runs: seq<Run>)
    requires Sound(s) && r in s.layout.regions && s.layout.regions[r].kind == Large && Canonical(runs, 0)
    requires Pages(runs) == Pages(s.layout.runs) + Extent(r, s.layout.regions[r].count)
    ensures r < |s.usage| && Sound(LargeBack(s, r, runs))
    ensures Live(LargeBack(s, r, runs)) == Live(s) - {r * PAGE}
  {
    FindLarge(s, r);
    ReturnKeeps(s.layout, s.npages, r, runs);
    var s' := LargeBack(s, r, runs);
    StartsDropped(s.layout.regions, r, InUse);
    StartsDropped(s.layout.regions, r, Spare);
    StartsDropped(s.layout.regions, r, Large);
    OddDropped(s.layout.regions, s.zonePages, r);
    UsageDropped(s, s'.usage, r);
    LiveLargeGone(s, s', r);
  }

  lemma UsageDropped(s: State, usage: seq<Usage>, r: nat)
    requires Sound(s) && r in s.layout.regions && |usage| == |s.usage|
    requires forall p: nat :: p < |s.usage| && !Within(p, r, s.layout.regions[r].count) ==> usage[p] == s.usage[p]
    ensures BadUsage(s.layout.regions - {r}, usage) == {}
  {
    RegionOf(s.layout, r);
    assert Within(r, r, s.layout.regions[r].count);
    var regions' := s.layout.regions - {r};
    forall x | x in regions' ensures x !in BadUsage(regions', usage) {
      UsageOf(s.layout.regions, s.usage, x);
      UsageKept(s.layout, s.npages, s.usage, usage, r, x);
      assert UsageAt(regions', usage, x);
    }
  }

  lemma LiveLargeGone(s: State, s': State, r: nat)
    requires Sound(s) && r in s.layout.regions && s.layout.regions[r].kind == Large
    requires s'.taken == s.taken && Starts(s'.layout.regions, Large) == Starts(s.layout.regions, Large) - {r}
    ensures Live(s') == Live(s) - {r * PAGE}
  {
    FindLarge(s, r);
    forall z, a | z in s.taken && a in s.taken[z] ensures a != r * PAGE {
      FindZone(s, z, a);
    }
    forall x | x in Starts(s.layout.regions, Large) && x != r ensures x * PAGE in Live(s') && x * PAGE != r * PAGE {
      assert x in Starts(s'.layout.regions, Large);
    }
  }

  /** A zone's header and its chunks in use change, and its bucket's list with them. */
  ghost function ZoneNow(s: State, z: nat, c: Zone, used: set<nat>, list: seq<nat>): State {
    s.(zones := s.zones[z := c], taken := s.taken[z := used], buckets := s.buckets[c.index := list])
  }

  lemma ZoneNowKeeps(s: State, z: nat, c: Zone, used: set<nat>, list: seq<nat>)
    requires Sound(s) && z in s.zones && c.index == s.zones[z].index && ZoneAt(s.zonePages, z, c, used)
    requires c.index in s.buckets ==> BucketAt(s.zones[z := c], list, c.index)
    ensures c.index in s.buckets && Sound(ZoneNow(s, z, c, used, list))
  {
    HasBucket(s, c.index);
    ZonesStep(s.zonePages, s.zones, s.taken, z, c, used);
    BucketsStep(s.zones, s.buckets, s.zones[z := c], c.index, z, list);
  }

  lemma LiveTaken(s: State, z: nat, c: Zone, a: nat, list: seq<nat>)
    requires Sound(s) && z in s.taken
    ensures Live(ZoneNow(s, z, c, s.taken[z] + {a}, list)) == Live(s) + {a}
    ensures a in s.taken[z] ==> Live(ZoneNow(s, z, c, s.taken[z] - {a}, list)) == Live(s) - {a}
  {
    var s1, s2 := ZoneNow(s, z, c, s.taken[z] + {a}, list), ZoneNow(s, z, c, s.taken[z] - {a}, list);
    forall b | b in Live(s) ensures b in Live(s1) {
      if b in (set z, a | z in s.taken && a in s.taken[z] :: a) {
        var y :| y in s.taken && b in s.taken[y];
        assert y in s1.taken && b in s1.taken[y];
      }
    }
    assert z in s1.taken && a in s1.taken[z];
    if a in s.taken[z] {
      LiveGivenBack(s, s2, z, a);
    }
  }

  lemma LiveGivenBack(s: State, s': State, z: nat, a: nat)
    requires Sound(s) && z in s.taken && a in s.taken[z]
    requires s'.layout == s.layout && s'.taken == s.taken[z := s.taken[z] - {a}]
    ensures Live(s') == Live(s) - {a}
  {
    FindZone(s, z, a);
    forall y, b | y in s.taken && b in s.taken[y] && b != a ensures y in s'.taken && b in s'.taken[y] {
    }
    forall y | y in s'.taken ensures a !in s'.taken[y] {
      if a in s.taken[y] {
        FindZone(s, y, a);
      }
    }
    forall r | r in Starts(s.layout.regions, Large) ensures r * PAGE != a {
      FindLarge(s, r);
    }
  }

  /** A region of zone size put to use as zone z, with its first chunk handed out. */
  ghost function Opened(s: State, z: nat, layout: Layout, spares: seq<nat>, usage: seq<Usage>, index: nat,
                        size: nat): State
    requires size > 0 && Count(s.zonePages, size) > 0 && index in s.buckets
  {
    var c := NewZone(s.zonePages, z, index, size);
    s.(layout := layout, zones := s.zones[z := c], taken := s.taken[z := {c.base}], spares := spares, usage := usage,
       buckets := s.buckets[index := [z] + s.buckets[index]])
  }

  lemma OpenBuckets(s: State, z: nat, index: nat, size: nat)
    requires Sound(s) && z !in s.zones && index < NZONES && size == ChunkSize(index) && Served(s.zonePages, size)
    ensures Count(s.zonePages, size) > 1 && index in s.buckets
    ensures var c := NewZone(s.zonePages, z, index, size); var zones := s.zones[z := c];
            && BadZones(s.zonePages, zones, s.taken[z := {c.base}]) == {}
            && BadBuckets(zones, s.buckets[index := [z] + s.buckets[index]]) == {}
            && s.buckets[index := [z] + s.buckets[index]].Keys == s.buckets.Keys
  {
    NewZoneAt(s.zonePages, z, index, size);
    HasBucket(s, index);
    BucketOf(s.zones, s.buckets, index);
    var c := NewZone(s.zonePages, z, index, size);
    ZonesStep(s.zonePages, s.zones, s.taken, z, c, {c.base});
    assert ([z] + s.buckets[index])[1..] == s.buckets[index];
    BucketsStep(s.zones, s.buckets, s.zones[z := c], index, z, [z] + s.buckets[index]);
  }

  lemma LiveOpened(s: State, s': State, z: nat, a: nat)
    requires Sound(s) && z !in s.taken && s'.taken == s.taken[z := {a}]
    requires Starts(s'.layout.regions, Large) == Starts(s.layout.regions, Large)
    ensures Live(s') == Live(s) + {a}
  {
    forall y, b | y in s.taken && b in s.taken[y] ensures y in s'.taken && b in s'.taken[y] {
    }
    assert z in s'.taken && a in s'.taken[z];
  }

  lemma OpenedSound(s: State, z: nat, layout: Layout, spares: seq<nat>, usage: seq<Usage>, index: nat, size: nat)
    requires Sound(s) && z !in s.zones && index < NZONES && size == ChunkSize(index) && Served(s.zonePages, size)
    requires Partitioned(layout, s.npages) && OddZones(layout.regions, s.zonePages) == {}
    requires |usage| == s.npages && BadUsage(layout.regions, usage) == {}
    requires Starts(layout.regions, InUse) == Starts(s.layout.regions, InUse) + {z}
    requires Distinct(spares) && Elements(spares) == Starts(layout.regions, Spare)
    ensures Count(s.zonePages, size) > 0 && index in s.buckets
            && Sound(Opened(s, z, layout, spares, usage, index, size))
  {
    OpenBuckets(s, z, index, size);
  }

  /** A zone made of free pages. */
  ghost function FreshZone(s: State, z: nat, runs: seq<Run>): State {
    s.(layout := Granted(s.layout, z, s.zonePages, InUse, runs), usage := Marked(s.usage, z, s.zonePages, Small))
  }

  lemma FreshPages(s: State, z: nat, runs: seq<Run>)
    requires Sound(s) && Extent(z, s.zonePages) <= Pages(s.layout.runs) && Canonical(runs, 0)
    requires Pages(runs) == Pages(s.layout.runs) - Extent(z, s.zonePages)
    ensures z !in s.layout.regions && Partitioned(FreshZone(s, z, runs).layout, s.npages)
    ensures var regions := FreshZone(s, z, runs).layout.regions;
            && BadUsage(regions, FreshZone(s, z, runs).usage) == {} && OddZones(regions, s.zonePages) == {}
            && Starts(regions, InUse) == Starts(s.layout.regions, InUse) + {z}
            && Starts(regions, Spare) == Starts(s.layout.regions, Spare)
            && Starts(regions, Large) == Starts(s.layout.regions, Large)
  {
    GrantKeeps(s.layout, s.npages, z, s.zonePages, InUse, runs);
    RegionAdded(s.layout.regions, s.zonePages, z, Region(InUse, s.zonePages));
    MarkedRegion(s, z, runs);
    UsageGranted(s, FreshZone(s, z, runs), z, s.zonePages);
  }

  lemma FreshSound(s: State, z: nat, runs: seq<Run>, index: nat, size: nat)
    requires Sound(s) && index < NZONES && size == ChunkSize(index) && Served(s.zonePages, size)
    requires Extent(z, s.zonePages) <= Pages(s.layout.runs) && Canonical(runs, 0)
    requires Pages(runs) == Pages(s.layout.runs) - Extent(z, s.zonePages)
    ensures index in s.buckets && Count(s.zonePages, size) > 0
    ensures var f := FreshZone(s, z, runs); var s' := Opened(s, z, f.layout, s.spares, f.usage, index, size);
            Sound(s') && Live(s') == Live(s) + {z * PAGE + Offset(size)}
    ensures z !in s.layout.regions
    ensures FreshZone(s, z, runs).layout.regions == s.layout.regions[z := Region(InUse, s.zonePages)]
  {
    FreshPages(s, z, runs);
    assert z !in Starts(s.layout.regions, InUse);
    var f := FreshZone(s, z, runs);
    OpenedSound(s, z, f.layout, s.spares, f.usage, index, size);
    LiveOpened(s, Opened(s, z, f.layout, s.spares, f.usage, index, size), z, z * PAGE + Offset(size));
  }

  lemma OpenFresh(s: State, z: nat, runs: seq<Run>, index: nat, size: nat)
    requires Broken(s) == {} && index < NZONES && size == ChunkSize(index) && Served(s.zonePages, size)
    requires Extent(z, s.zonePages) <= Pages(s.layout.runs) && Canonical(runs, 0)
    requires Pages(runs) == Pages(s.layout.runs) - Extent(z, s.zonePages)
    ensures index in s.buckets && Count(s.zonePages, size) > 0
    ensures var f := FreshZone(s, z, runs); var s' := Opened(s, z, f.layout, s.spares, f.usage, index, size);
            Broken(s') == {} && Live(s') == Live(s) + {z * PAGE + Offset(size)}
    ensures z !in s.layout.regions
    ensures FreshZone(s, z, runs).layout.regions == s.layout.regions[z := Region(InUse, s.zonePages)]
  {
    Intact(s);
    FreshSound(s, z, runs, index, size);
    var f := FreshZone(s, z, runs);
    AllIntact(Opened(s, z, f.layout, s.spares, f.usage, index, size));
  }

  lemma MarkedRegion(s: State, z: nat, runs: seq<Run>)
    requires Sound(s) && Extent(z, s.zonePages) <= Pages(s.layout.runs)
    ensures UsageAt(s.layout.regions[z := Region(InUse, s.zonePages)], Marked(s.usage, z, s.zonePages, Small), z)
  {
    forall p: nat | Within(p, z, s.zonePages) ensures p < |s.usage| {
      assert p in Extent(z, s.zonePages);
      PageExists(s, p);
    }
  }

  /** A zone put to use or kept spare: only its kind changes. */
  ghost function Rekinded(l: Layout, z: nat, kind: Kind): Layout
    requires z in l.regions
  {
    l.(regions := l.regions[z := l.regions[z].(kind := kind)])
  }

  lemma RekindFacts(s: State, z: nat, kind: Kind)
    requires Sound(s) && z in s.layout.regions && s.layout.regions[z].kind in {InUse, Spare} && kind in {InUse, Spare}
    ensures var l := Rekinded(s.layout, z, kind);
            && Partitioned(l, s.npages) && BadUsage(l.regions, s.usage) == {} && OddZones(l.regions, s.zonePages) == {}
            && Starts(l.regions, kind) == Starts(s.layout.regions, kind) + {z}
            && Starts(l.regions, Large) == Starts(s.layout.regions, Large)
            && (kind == InUse ==> Starts(l.regions, Spare) == Starts(s.layout.regions, Spare) - {z})
            && (kind == Spare ==> Starts(l.regions, InUse) == Starts(s.layout.regions, InUse) - {z})
  {
    RegionSize(s, z);
    RekindKeeps(s.layout, s.npages, z, kind);
    var g := s.layout.regions[z].(kind := kind);
    StartsGranted(s.layout.regions, z, g, InUse);
    StartsGranted(s.layout.regions, z, g, Spare);
    StartsGranted(s.layout.regions, z, g, Large);
    OddGranted(s.layout.regions, s.zonePages, z, g);
    UsageRekind(s, z, kind);
  }

  lemma FirstSpare(s: State)
    requires Sound(s) && s.spares != []
    ensures var z := s.spares[0];
            && z in s.layout.regions && s.layout.regions[z].kind == Spare && z !in s.zones && z !in s.taken
            && Distinct(s.spares[1..]) && Elements(s.spares[1..]) == Elements(s.spares) - {z}
  {
    HeadFacts(s.spares);
    assert s.spares[0] in Starts(s.layout.regions, Spare) && s.spares[0] !in Starts(s.layout.regions, InUse);
  }

  /** A zone made of the first spare one; its descriptors are still right. */
  lemma SpareSound(s: State, index: nat, size: nat)
    requires Sound(s) && index < NZONES && size == ChunkSize(index) && Served(s.zonePages, size) && s.spares != []
    ensures index in s.buckets && Count(s.zonePages, size) > 0 && s.spares[0] in s.layout.regions
    ensures var z := s.spares[0];
            var s' := Opened(s, z, Rekinded(s.layout, z, InUse), s.spares[1..], s.usage, index, size);
            Sound(s') && Live(s') == Live(s) + {z * PAGE + Offset(size)}
    ensures s.layout.regions[s.spares[0]].kind == Spare
  {
    FirstSpare(s);
    var z := s.spares[0];
    RekindFacts(s, z, InUse);
    OpenedSound(s, z, Rekinded(s.layout, z, InUse), s.spares[1..], s.usage, index, size);
    LiveOpened(s, Opened(s, z, Rekinded(s.layout, z, InUse), s.spares[1..], s.usage, index, size), z,
        z * PAGE + Offset(size));
  }

  lemma OpenSpare(s: State, index: nat, size: nat)
    requires Broken(s) == {} && index < NZONES && size == ChunkSize(index) && Served(s.zonePages, size)
    requires s.spares != []
    ensures index in s.buckets && Count(s.zonePages, size) > 0 && s.spares[0] in s.layout.regions
    ensures var z := s.spares[0];
            var s' := Opened(s, z, Rekinded(s.layout, z, InUse), s.spares[1..], s.usage, index, size);
            Broken(s') == {} && Live(s') == Live(s) + {z * PAGE + Offset(size)}
    ensures s.layout.regions[s.spares[0]].kind == Spare
  {
    Intact(s);
    SpareSound(s, index, size);
    AllIntact(Opened(s, s.spares[0], Rekinded(s.layout, s.spares[0], InUse), s.spares[1..], s.usage, index, size));
  }

  lemma UsageRekind(s: State, z: nat, kind: Kind)
    requires Sound(s) && z in s.layout.regions && s.layout.regions[z].kind in {InUse, Spare} && kind in {InUse, Spare}
    ensures BadUsage(s.layout.regions[z := s.layout.regions[z].(kind := kind)], s.usage) == {}
  {
    var regions' := s.layout.regions[z := s.layout.regions[z].(kind := kind)];
    forall x | x in regions' ensures x !in BadUsage(regions', s.usage) {
      UsageOf(s.layout.regions, s.usage, x);
      assert UsageAt(regions', s.usage, x);
    }
  }

  /** A zone with no chunk in use, taken out of its bucket and kept spare. */
  ghost function Spared(s: State, z: nat): State
    requires z in s.zones && z in s.layout.regions && s.zones[z].index in s.buckets
  {
    var zi := s.zones[z].index;
    s.(layout := Rekinded(s.layout, z, Spare),
       zones := s.zones - {z}, taken := s.taken - {z}, buckets := s.buckets[zi := Without(s.buckets[zi], z)],
       spares := [z] + s.spares)
  }

  lemma SpareKeeps(s: State, z: nat)
    requires Sound(s) && z in s.zones && s.taken[z] == {}
    ensures z in s.layout.regions && s.zones[z].index in s.buckets
    ensures Sound(Spared(s, z)) && Live(Spared(s, z)) == Live(s)
  {
    ZoneOf(s.zonePages, s.zones, s.taken, z);
    var zi := s.zones[z].index;
    HasBucket(s, zi);
    assert z in Starts(s.layout.regions, InUse) && z !in Starts(s.layout.regions, Spare);
    RekindFacts(s, z, Spare);
    ZonesDrop(s.zonePages, s.zones, s.taken, z);
    SpareBucket(s, z);
    assert z !in Elements(s.spares) && ([z] + s.spares)[1..] == s.spares;
    assert Elements([z] + s.spares) == Elements(s.spares) + {z};
    LiveSpared(s, z);
  }

  lemma WithoutMembers(list: seq<nat>, z: nat)
    requires Distinct(list)
    ensures Distinct(Without(list, z)) && forall x :: x in Without(list, z) <==> x in list && x != z
  {
    WithoutFacts(list, z);
    var rest := Without(list, z);
    forall x ensures x in rest <==> x in list && x != z {
      assert x in rest <==> x in Elements(rest);
      assert x in list <==> x in Elements(list);
    }
  }

  lemma SpareBucket(s: State, z: nat)
    requires Sound(s) && z in s.zones && s.zones[z].index in s.buckets
    ensures var zi := s.zones[z].index;
            BadBuckets(s.zones - {z}, s.buckets[zi := Without(s.buckets[zi], z)]) == {}
  {
    var zi := s.zones[z].index;
    var list := s.buckets[zi];
    BucketOf(s.zones, s.buckets, zi);
    var rest := Without(list, z);
    WithoutMembers(list, z);
    BucketsStep(s.zones, s.buckets, s.zones - {z}, zi, z, rest);
  }

  lemma LiveSpared(s: State, z: nat)
    requires Sound(s) && z in s.zones && s.taken[z] == {} && z in s.layout.regions && s.zones[z].index in s.buckets
    requires Starts(Spared(s, z).layout.regions, Large) == Starts(s.layout.regions, Large)
    ensures Live(Spared(s, z)) == Live(s)
  {
    var s' := Spared(s, z);
    forall y, b | y in s.taken && b in s.taken[y] ensures y in s'.taken && b in s'.taken[y] {
    }
  }

  /** The first spare zone's pages go back to the free list. */
  ghost function Released(s: State, runs: seq<Run>): State
    requires s.spares != [] && s.spares[0] in s.layout.regions
  {
    s.(layout := Returned(s.layout, s.spares[0], runs), spares := s.spares[1..],
       usage := Marked(s.usage, s.spares[0], s.zonePages, Unused))
  }

  lemma ReleaseKeeps(s: State, runs: seq<Run>)
    requires Sound(s) && s.spares != [] && Canonical(runs, 0)
    requires Pages(runs) == Pages(s.layout.runs) + Extent(s.spares[0], s.zonePages)
    ensures s.spares[0] in s.layout.regions && Sound(Released(s, runs)) && Live(Released(s, runs)) == Live(s)
  {
    var z := s.spares[0];
    HeadFacts(s.spares);
    assert z in Starts(s.layout.regions, Spare);
    RegionSize(s, z);
    ReturnKeeps(s.layout, s.npages, z, runs);
    StartsDropped(s.layout.regions, z, InUse);
    StartsDropped(s.layout.regions, z, Spare);
    StartsDropped(s.layout.regions, z, Large);
    OddDropped(s.layout.regions, s.zonePages, z);
    UsageDropped(s, Marked(s.usage, z, s.zonePages, Unused), z);
    LiveSame(s, Released(s, runs));
  }

  // What the steps do to the blocks handed out

  lemma LargeOutBlocks(s: State, r: nat, n: nat, runs: seq<Run>)
    requires Broken(s) == {} && n > 0 && Extent(r, n) <= Pages(s.layout.runs)
    requires Canonical(runs, 0) && Pages(runs) == Pages(s.layout.runs) - Extent(r, n)
    ensures r < |s.usage| && Broken(LargeOut(s, r, n, runs)) == {} && r * PAGE !in Live(s)
    ensures Blocks(LargeOut(s, r, n, runs)) == Blocks(s)[r * PAGE := n * PAGE]
  {
    Intact(s);
    LargeOutKeeps(s, r, n, runs);
    var s' := LargeOut(s, r, n, runs);
    assert Within(r, r, n) && r in Pages(s.layout.runs) && s.layout.owner[r] == FREE;
    MultipleMod(r, PAGE);
    if r * PAGE in Live(s) {
      LiveOwner(s, r * PAGE);
    }
    SizeOfLarge(s', r);
    BlockAdded(s, s', r * PAGE, n * PAGE);
    AllIntact(s');
  }

  lemma LargeBackBlocks(s: State, r: nat, runs: seq<Run>)
    requires Broken(s) == {} && r in s.layout.regions && s.layout.regions[r].kind == Large && Canonical(runs, 0)
    requires Pages(runs) == Pages(s.layout.runs) + Extent(r, s.layout.regions[r].count)
    ensures r < |s.usage| && Broken(LargeBack(s, r, runs)) == {}
            && Blocks(LargeBack(s, r, runs)) == Blocks(s) - {r * PAGE}
  {
    Intact(s);
    LargeBackKeeps(s, r, runs);
    BlockRemoved(s, LargeBack(s, r, runs), r * PAGE);
    AllIntact(LargeBack(s, r, runs));
  }

  lemma ChunkOutBlocks(s: State, z: nat, c: Zone, a: nat, list: seq<nat>)
    requires Broken(s) == {} && z in s.zones && s.zones[z].nfree > 0 && c.nfree == s.zones[z].nfree - 1
             && c.size == s.zones[z].size
    requires c.index == s.zones[z].index && z in s.taken && ZoneAt(s.zonePages, z, c, s.taken[z] + {a})
             && a !in s.taken[z]
    requires c.index in s.buckets && s.buckets[c.index] == list && list != [] && list[0] == z
    ensures var s' := ZoneNow(s, z, c, s.taken[z] + {a}, if c.nfree == 0 then list[1..] else list);
            Broken(s') == {} && a !in Live(s) && Blocks(s') == Blocks(s)[a := c.size]
  {
    Intact(s);
    ChunkLeaves(s, z, c, a, list);
    var s' := ZoneNow(s, z, c, s.taken[z] + {a}, if c.nfree == 0 then list[1..] else list);
    SizeOfChunk(s', z, a);
    BlockAdded(s, s', a, c.size);
    AllIntact(s');
  }

  lemma ChunkBackBlocks(s: State, z: nat, a: nat)
    requires Broken(s) == {} && z in s.zones && z in s.taken && a in s.taken[z]
    ensures s.zones[z].index in s.buckets
    ensures var c := s.zones[z];
            var list := if c.nfree == 0 then [z] + s.buckets[c.index] else s.buckets[c.index];
            var s' := ZoneNow(s, z, GivenBack(c, a), s.taken[z] - {a}, list);
            Broken(s') == {} && Blocks(s') == Blocks(s) - {a}
  {
    Intact(s);
    ChunkReturns(s, z, a);
    var c := s.zones[z];
    var list := if c.nfree == 0 then [z] + s.buckets[c.index] else s.buckets[c.index];
    var s' := ZoneNow(s, z, GivenBack(c, a), s.taken[z] - {a}, list);
    BlockRemoved(s, s', a);
    AllIntact(s');
  }

  /** The first chunk of a zone that is not in use yet is not live. */
  lemma FirstChunkNew(s: State, z: nat, size: nat)
    requires Broken(s) == {} && Served(s.zonePages, size)
    requires Extent(z, s.zonePages) <= Pages(s.layout.runs)
          || (z in s.layout.regions && s.layout.regions[z].kind == Spare)
    ensures z * PAGE + Offset(size) !in Live(s)
  {
    Intact(s);
    Geometry(s.zonePages, size);
    ChunkPage(z, s.zonePages, size, 0);
    var a := z * PAGE + Offset(size);
    assert a == Address(z, size, 0) && Within(a / PAGE, z, s.zonePages);
    if Extent(z, s.zonePages) <= Pages(s.layout.runs) {
      assert a / PAGE in Extent(z, s.zonePages);
      assert s.layout.owner[a / PAGE] == FREE;
    } else {
      RegionSize(s, z);
      PageIn(s.layout, z, a / PAGE);
    }
    if a in Live(s) {
      LiveOwner(s, a);
    }
  }

  lemma OpenedCarries(s: State, s': State, z: nat, a: nat)
    requires Sound(s) && (z in s.layout.regions ==> s.layout.regions[z].kind == Spare)
    requires z in s'.taken && z in s'.zones && z in s'.layout.regions
    requires s'.taken == s.taken[z := s'.taken[z]] && s'.zones == s.zones[z := s'.zones[z]]
    requires s'.layout.regions == s.layout.regions[z := s'.layout.regions[z]]
    ensures Carries(s, s', a)
  {
    assert z !in Starts(s.layout.regions, InUse);
  }

  lemma OpenedBlocks(s: State, s': State, z: nat, a: nat, size: nat)
    requires Broken(s) == {} && Broken(s') == {} && Live(s') == Live(s) + {a} && a !in Live(s)
    requires z in s.layout.regions ==> s.layout.regions[z].kind == Spare
    requires z in s'.zones && s'.zones[z].size == size && z in s'.layout.regions
    requires s'.taken == s.taken[z := {a}] && s'.zones == s.zones[z := s'.zones[z]]
    requires s'.layout.regions == s.layout.regions[z := s'.layout.regions[z]]
    ensures Blocks(s') == Blocks(s)[a := size]
  {
    Intact(s);
    Intact(s');
    SizeOfChunk(s', z, a);
    OpenedCarries(s, s', z, a);
    BlockAdded(s, s', a, size);
  }

  /** What a new zone changes. */
  lemma OpenedZone(s: State, z: nat, layout: Layout, spares: seq<nat>, usage: seq<Usage>, index: nat, size: nat)
    requires size > 0 && Count(s.zonePages, size) > 0 && index in s.buckets
    ensures var s' := Opened(s, z, layout, spares, usage, index, size);
            && z in s'.zones && s'.zones[z].size == size && s'.layout == layout
            && s'.taken == s.taken[z := {z * PAGE + Offset(size)}] && s'.zones == s.zones[z := s'.zones[z]]
  {
  }

  lemma OpenFreshBlocks(s: State, z: nat, runs: seq<Run>, index: nat, size: nat)
    requires Broken(s) == {} && index < NZONES && size == ChunkSize(index) && Served(s.zonePages, size)
    requires Extent(z, s.zonePages) <= Pages(s.layout.runs) && Canonical(runs, 0)
    requires Pages(runs) == Pages(s.layout.runs) - Extent(z, s.zonePages)
    ensures index in s.buckets && Count(s.zonePages, size) > 0 && z * PAGE + Offset(size) !in Live(s)
    ensures var f := FreshZone(s, z, runs); var s' := Opened(s, z, f.layout, s.spares, f.usage, index, size);
            Broken(s') == {} && Blocks(s') == Blocks(s)[z * PAGE + Offset(size) := size]
  {
    OpenFresh(s, z, runs, index, size);
    FirstChunkNew(s, z, size);
    var f := FreshZone(s, z, runs);
    OpenedZone(s, z, f.layout, s.spares, f.usage, index, size);
    OpenedBlocks(s, Opened(s, z, f.layout, s.spares, f.usage, index, size), z, z * PAGE + Offset(size), size);
  }

  lemma OpenSpareBlocks(s: State, index: nat, size: nat)
    requires Broken(s) == {} && index < NZONES && size == ChunkSize(index) && Served(s.zonePages, size)
             && s.spares != []
    ensures index in s.buckets && Count(s.zonePages, size) > 0 && s.spares[0] in s.layout.regions
    ensures var z := s.spares[0];
            var s' := Opened(s, z, Rekinded(s.layout, z, InUse), s.spares[1..], s.usage, index, size);
            && Broken(s') == {} && z * PAGE + Offset(size) !in Live(s)
            && Blocks(s') == Blocks(s)[z * PAGE + Offset(size) := size]
  {
    OpenSpare(s, index, size);
    var z := s.spares[0];
    FirstChunkNew(s, z, size);
    OpenedZone(s, z, Rekinded(s.layout, z, InUse), s.spares[1..], s.usage, index, size);
    OpenedBlocks(s, Opened(s, z, Rekinded(s.layout, z, InUse), s.spares[1..], s.usage, index, size), z,
        z * PAGE + Offset(size), size);
  }

  lemma SparedCarries(s: State, z: nat)
    requires Sound(s) && z in s.zones && z in s.taken && s.taken[z] == {}
    requires z in s.layout.regions && s.zones[z].index in s.buckets
    ensures Carries(s, Spared(s, z), -1)
  {
    assert z in Starts(s.layout.regions, InUse);
  }

  lemma SpareBlocks(s: State, z: nat)
    requires Broken(s) == {} && z in s.zones && z in s.taken && s.taken[z] == {}
    ensures z in s.layout.regions && s.zones[z].index in s.buckets
    ensures Broken(Spared(s, z)) == {} && Blocks(Spared(s, z)) == Blocks(s)
  {
    Intact(s);
    SpareKeeps(s, z);
    SparedCarries(s, z);
    var s' := Spared(s, z);
    BlocksSame(s, s');
    AllIntact(s');
  }

  lemma ReleaseBlocks(s: State, runs: seq<Run>)
    requires Broken(s) == {} && s.spares != [] && Canonical(runs, 0)
    requires Pages(runs) == Pages(s.layout.runs) + Extent(s.spares[0], s.zonePages)
    ensures s.spares[0] in s.layout.regions && Broken(Released(s, runs)) == {} && Blocks(Released(s, runs)) == Blocks(s)
  {
    Intact(s);
    ReleaseKeeps(s, runs);
    FirstSpare(s);
    BlocksSame(s, Released(s, runs));
    AllIntact(Released(s, runs));
  }

  /** What a free finds at a live address. */
  lemma FreeFacts(s: State, a: nat) returns (small: bool, r: nat)
    requires Broken(s) == {} && a in Blocks(s)
    ensures a / PAGE < |s.usage| && s.usage[a / PAGE].kind == if small then Small else LargePages
    ensures small ==> r == a / PAGE - s.usage[a / PAGE].size && r in s.zones && r in s.taken && a in s.taken[r]
    ensures !small ==> a / PAGE == r && a == r * PAGE && r in s.layout.regions && s.layout.regions[r].kind == Large
    ensures Total(Blocks(s) - {a}) ==
            Total(Blocks(s)) - if small then s.zones[r].size else s.usage[a / PAGE].size * PAGE
  {
    Intact(s);
    small, r := FindLive(s, a);
    TotalWithout(Blocks(s), a);
    if small {
      SizeOfChunk(s, r, a);
    }
  }

  lemma StillUntouched(before: seq<bv8>, after: seq<bv8>, m: map<nat, nat>, a: nat)
    requires Untouched(before, after, m)
    ensures Untouched(before, after, m - {a})
  {
  }

  // The heap

  /** The pages a large request is served with. */
  function PageCount(size: nat): nat {
    RoundUp(size, PAGE) / PAGE
  }

  function ZoneLimit(zonePages: nat): nat {
    if zonePages * PAGE / 4 > 16384 then 16384 else zonePages * PAGE / 4
  }

  /** The size of the block a request gets: whole pages, or the chunk size of its bucket. */
  function Given(zonePages: nat, size: nat): nat
    requires size > 0
  {
    if size >= ZoneLimit(zonePages) then PageCount(size) * PAGE else ZoneIndex(size).size
  }

  /** Where n pages are found: the first run that is long enough. */
  ghost function PagesFor(s: State, n: nat): Pointer {
    var i := FirstLong(s.layout.runs, n);
    if i < |s.layout.runs| then To(s.layout.runs[i].start * PAGE) else Null
  }

  /** The first chunk of a new zone: the first spare one, or one made of free pages. */
  ghost function ZoneFor(s: State, size: nat): Pointer
    requires size > 0
  {
    var z := if s.spares != [] then To(s.spares[0] * PAGE) else PagesFor(s, s.zonePages);
    if z.To? then To(z.addr + Offset(size)) else Null
  }

  /** Where a request is served: pages, the next chunk of the first zone of its bucket, or a new zone. */
  ghost function Found(s: State, size: nat): Pointer
    requires size > 0
  {
    var zi := ZoneIndex(size).index;
    if size >= ZoneLimit(s.zonePages) then PagesFor(s, PageCount(size))
    else if zi in s.buckets && s.buckets[zi] != [] then
      if s.buckets[zi][0] in s.zones then To(Picked(s.zones[s.buckets[zi][0]])) else Null
    else ZoneFor(s, ChunkSize(zi))
  }

  /** A freed block: pages of a large one join the free ones; a zone left without chunks in use and
      not alone in its bucket is kept spare, or its pages are freed if there are enough spare ones. */
  ghost predicate FreeDone(s: State, a: nat, s': State) {
    a / PAGE < |s.usage| &&
    var u := s.usage[a / PAGE];
    if u.kind != Small then
      && s'.zones == s.zones && s'.buckets == s.buckets && s'.spares == s.spares
      && Pages(s'.layout.runs) == Pages(s.layout.runs) + Extent(a / PAGE, u.size)
    else u.size <= a / PAGE && ChunkDone(s, a / PAGE - u.size, a, s')
  }

  ghost predicate ChunkDone(s: State, z: nat, a: nat, s': State) {
    z in s.zones && s.zones[z].index in s.buckets &&
    var c := s.zones[z];
    var list := if c.nfree == 0 then [z] + s.buckets[c.index] else s.buckets[c.index];
    if c.nfree + 1 != c.nmax || list == [z] then
      && s'.zones == s.zones[z := GivenBack(c, a)] && s'.buckets == s.buckets[c.index := list]
      && s'.spares == s.spares && s'.layout.runs == s.layout.runs
    else
      && s'.zones == s.zones - {z} && s'.buckets == s.buckets[c.index := Without(list, z)]
      && if |s.spares| < RELEASE_THRESHOLD then s'.spares == [z] + s.spares && s'.layout.runs == s.layout.runs
         else s'.spares == s.spares && Pages(s'.layout.runs) == Pages(s.layout.runs) + Extent(z, s.zonePages)
  }

  // The byte count

  ghost function Total(m: map<nat, nat>): nat {
    if m == map[] then 0 else var a :| a in m; m[a] + Total(m - {a})
  }

  lemma {:induction false} TotalWithout(m: map<nat, nat>, a: nat)
    requires a in m
    ensures Total(m) == m[a] + Total(m - {a})
  {
    var b :| b in m && Total(m) == m[b] + Total(m - {b});
    if a != b {
      TotalWithout(m - {b}, a);
      TotalWithout(m - {a}, b);
      assert m - {b} - {a} == m - {a} - {b};
    }
  }

  lemma TotalWith(m: map<nat, nat>, a: nat, n: nat)
    requires a !in m
    ensures Total(m[a := n]) == Total(m) + n
  {
    TotalWithout(m[a := n], a);
    assert m[a := n] - {a} == m;
  }

  // What the caller gets

  /** A request that a chunk serves: below 16384 bytes and below a quarter of a zone. */
  predicate IsSmall(zonePages: nat, size: nat) {
    size < 16384 && 4 * size < zonePages * PAGE
  }

  /** It gets the smallest chunk of the table that holds it; any other the fewest whole pages. */
  lemma GivenIs(zonePages: nat, size: nat) returns (i: nat)
    requires size > 0 && zonePages in {8, 16, 32}
    ensures IsSmall(zonePages, size) ==>
              && i < NZONES && i == ZoneIndex(size).index && Given(zonePages, size) == ChunkSize(i) >= size
              && (i > 0 ==> ChunkSize(i - 1) < size)
    ensures !IsSmall(zonePages, size) ==>
              Given(zonePages, size) % PAGE == 0 && size <= Given(zonePages, size) < size + PAGE
  {
    i := ZoneIndex(size).index;
    if IsSmall(zonePages, size) {
      BestFit(size);
    } else {
      WholePages(size);
      MultipleMod(PageCount(size), PAGE);
    }
  }

  lemma LongEnough(count: nat, size: nat)
    requires size > 0
    ensures count < PageCount(size) <==> count * PAGE < size
  {
    WholePages(size);
    if count < PageCount(size) {
      assert count * PAGE <= (PageCount(size) - 1) * PAGE;
    } else {
      assert count * PAGE >= PageCount(size) * PAGE;
    }
  }

  /** No zone of these chunks has a free one. */
  ghost predicate Exhausted(s: State, size: nat) {
    forall z :: z in s.zones && s.zones[z].size == size ==> s.zones[z].nfree == 0
  }

  ghost predicate NoRun(s: State, bytes: nat) {
    forall i :: 0 <= i < |s.layout.runs| ==> s.layout.runs[i].count * PAGE < bytes
  }

  lemma NoPages(s: State, size: nat)
    requires size > 0
    ensures PagesFor(s, PageCount(size)) == Null <==> NoRun(s, size)
  {
    forall i | 0 <= i < |s.layout.runs|
      ensures s.layout.runs[i].count < PageCount(size) <==> s.layout.runs[i].count * PAGE < size
    {
      LongEnough(s.layout.runs[i].count, size);
    }
  }

  lemma ZoneRuns(s: State)
    ensures PagesFor(s, s.zonePages) == Null <==> NoRun(s, s.zonePages * PAGE)
  {
    forall i | 0 <= i < |s.layout.runs|
      ensures s.layout.runs[i].count < s.zonePages <==> s.layout.runs[i].count * PAGE < s.zonePages * PAGE
    {
      TimesPage(s.layout.runs[i].count, s.zonePages);
    }
  }

  lemma TimesPage(m: nat, n: nat)
    ensures m < n <==> m * PAGE < n * PAGE
  {
  }

  lemma BucketEmpty(s: State, zi: nat)
    requires Broken(s) == {} && zi < NZONES
    ensures zi in s.buckets && (s.buckets[zi] == [] <==> Exhausted(s, ChunkSize(zi)))
    ensures s.buckets[zi] != [] ==> s.buckets[zi][0] in s.zones
  {
    Intact(s);
    HasBucket(s, zi);
    BucketOf(s.zones, s.buckets, zi);
    forall z | z in s.zones ensures s.zones[z].size == ChunkSize(zi) <==> s.zones[z].index == zi {
      ZoneOf(s.zonePages, s.zones, s.taken, z);
      var i := s.zones[z].index;
      if i < zi {
        ChunkSizesGrow(i, zi);
      } else if zi < i {
        ChunkSizesGrow(zi, i);
      }
    }
    if s.buckets[zi] != [] {
      var z := s.buckets[zi][0];
      assert z in s.buckets[zi];
    }
  }

  /** A request is refused exactly if nothing can serve it: for a chunk no zone of its size with a
      free one, no spare zone and no run of pages for a new one; otherwise no run long enough. */
  lemma RefusedExactly(s: State, size: nat)
    requires Broken(s) == {} && size > 0
    ensures Found(s, size) == Null <==>
            if IsSmall(s.zonePages, size)
            then Exhausted(s, Given(s.zonePages, size)) && s.spares == [] && NoRun(s, s.zonePages * PAGE)
            else NoRun(s, size)
  {
    Intact(s);
    var i := GivenIs(s.zonePages, size);
    if IsSmall(s.zonePages, size) {
      BucketEmpty(s, i);
      ZoneRuns(s);
    } else {
      NoPages(s, size);
    }
  }

  /** What a reallocation of the block at a asks for: a chunk is compared by chunk sizes. */
  ghost function Asked(s: State, a: nat, size: nat): nat
    requires size > 0
  {
    if IsChunk(s, a) then ZoneIndex(size).size else size
  }

  ghost predicate IsChunk(s: State, a: nat) {
    a / PAGE < |s.usage| && s.usage[a / PAGE].kind == Small
  }

  lemma StaysPut(s: State, data: seq<bv8>, a: nat, want: nat, size: nat)
    requires a in Blocks(s) && want > 0 && IsChunk(s, a) && Blocks(s)[a] == want
    ensures Resized(s, a, want, To(a), Blocks(s)) && Moved(data, data, Blocks(s), a, a, size)
  {
  }

  lemma AskedFacts(s: State, a: nat, size: nat)
    requires Broken(s) == {} && a in Blocks(s) && size > 0
    ensures a / PAGE < |s.usage| && size <= Asked(s, a, size)
    ensures var u := s.usage[a / PAGE];
            if u.kind == Small then
              u.size <= a / PAGE && a / PAGE - u.size in s.zones && Blocks(s)[a] == s.zones[a / PAGE - u.size].size
            else Blocks(s)[a] == u.size * PAGE
  {
    Intact(s);
    var small, r := FindLive(s, a);
    if small {
      SizeOfChunk(s, r, a);
    }
    if size < 16384 {
      BestFit(size);
    }
  }

  lemma WholePages(size: nat)
    requires size > 0
    ensures PageCount(size) > 0 && size <= PageCount(size) * PAGE < size + PAGE
  {
    RoundUpFacts(size, PAGE);
  }

  /** rt_system_heap_init: larger heaps get larger zones. */
  method ZoneSize(limsize: nat) returns (zoneSize: nat)
    ensures zoneSize in {8 * PAGE, 16 * PAGE, 32 * PAGE}
    ensures zoneSize > 8 * PAGE ==> zoneSize < limsize / 1024
    ensures zoneSize < 32 * PAGE ==> zoneSize * 2 >= limsize / 1024
  {
    zoneSize := 8 * PAGE;
    while zoneSize < 32 * PAGE && zoneSize * 2 < limsize / 1024
      invariant zoneSize in {8 * PAGE, 16 * PAGE, 32 * PAGE}
      invariant zoneSize > 8 * PAGE ==> zoneSize < limsize / 1024
      decreases 32 * PAGE - zoneSize
    {
      zoneSize := zoneSize * 2;
    }
  }

  lemma InitialLayout(l: Layout, npages: nat, n: nat)
    requires 0 < n <= npages && Canonical(l.runs, 0) && Pages(l.runs) == Extent(0, npages) - Extent(0, n)
    requires l.regions == map[0 := Region(Table, n)]
    requires l.owner == FirstOwner(npages, n)
    ensures Partitioned(l, npages)
  {
    forall p | p in l.owner ensures OwnerOk(l, p) && (p in Pages(l.runs) <==> p in Unowned(l.owner)) {
      assert p in Extent(0, n) <==> Within(p, 0, n);
    }
    forall p | Within(p, 0, n) ensures p in l.owner && l.owner[p] == 0 {
      assert p in Extent(0, npages) <==> Within(p, 0, npages);
    }
    assert RegionOk(l, 0);
  }

  function NoBuckets(): map<nat, seq<nat>> {
    map zi | zi in Indices(NZONES) :: []
  }

  ghost function FirstOwner(npages: nat, n: nat): map<int, int> {
    map p | p in Extent(0, npages) :: if Within(p, 0, n) then 0 else FREE
  }

  /** An empty heap whose first n pages hold the descriptors. */
  ghost function Empty(npages: nat, zonePages: nat, n: nat, runs: seq<PageList.Run>, usage: seq<Usage>): State {
    State(npages, zonePages,
          Layout(runs, map[0 := Region(Table, n)], FirstOwner(npages, n)), map[], map[], NoBuckets(), [], usage)
  }

  lemma EmptyIsSound(npages: nat, zonePages: nat, n: nat, runs: seq<PageList.Run>, usage: seq<Usage>)
    requires 0 < n <= npages && zonePages in {8, 16, 32} && |usage| == npages
    requires Canonical(runs, 0) && Pages(runs) == Extent(0, npages) - Extent(0, n)
    ensures Broken(Empty(npages, zonePages, n, runs, usage)) == {}
    ensures Blocks(Empty(npages, zonePages, n, runs, usage)) == map[]
    ensures n < npages ==> runs == [PageList.Run(n, npages - n)]
  {
    InitialLayout(Empty(npages, zonePages, n, runs, usage).layout, npages, n);
    InitialSound(Empty(npages, zonePages, n, runs, usage), n);
    InitialRuns(runs, n, npages);
  }

  lemma InitialRuns(runs: seq<Run>, n: nat, npages: nat)
    requires Canonical(runs, 0) && n <= npages && Pages(runs) == Extent(0, npages) - Extent(0, n)
    ensures n < npages ==> runs == [PageList.Run(n, npages - n)]
  {
    if n < npages {
      Single(PageList.Run(n, npages - n), 0);
      assert Extent(0, npages) - Extent(0, n) == Extent(n, npages - n);
      CanonicalIsUnique(runs, [PageList.Run(n, npages - n)], 0);
    }
  }

  /** The bookkeeping of an empty heap whose first n pages hold the descriptors. */
  lemma InitialSound(s: State, n: nat)
    requires 0 < n <= s.npages && s.zonePages in {8, 16, 32} && |s.usage| == s.npages
    requires Partitioned(s.layout, s.npages) && s.layout.regions == map[0 := Region(Table, n)]
    requires s.zones == map[] && s.taken == map[] && s.spares == []
    requires s.buckets == NoBuckets()
    ensures Broken(s) == {} && Blocks(s) == map[]
  {
    assert Starts(s.layout.regions, InUse) == {} && Starts(s.layout.regions, Spare) == {}
        && Starts(s.layout.regions, Large) == {};
    assert OddZones(s.layout.regions, s.zonePages) == {} && BadUsage(s.layout.regions, s.usage) == {};
    assert Live(s) == {};
    AllIntact(s);
  }

  /** The bytes of all these blocks read as before. */
  ghost predicate Untouched(before: seq<bv8>, after: seq<bv8>, blocks: map<nat, nat>) {
    && |before| == |after|
    && forall c, k: nat :: c in blocks && c <= k < c + blocks[c] && k < |before| ==> after[k] == before[k]
  }

  /** Copying n bytes into block b leaves all the others alone. */
  lemma CopyAside(s: State, data: seq<bv8>, a: nat, b: nat, n: nat)
    requires Broken(s) == {} && a in Blocks(s) && b in Blocks(s) && a != b && |data| == s.npages * PAGE
    requires n <= Blocks(s)[a] && n <= Blocks(s)[b]
    ensures Disjoint(|data|, b, a, n)
    ensures Untouched(data, Copied(data, b, a, n), Blocks(s) - {b})
    ensures Bytes(Copied(data, b, a, n), b, n) == Bytes(data, a, n)
  {
    BlockInHeap(s, a);
    BlockInHeap(s, b);
    BlocksApart(s, a, b);
    CopiedBytes(data, b, a, n);
    forall c, k: nat | c in Blocks(s) - {b} && c <= k < c + Blocks(s)[c] && k < |data|
      ensures Copied(data, b, a, n)[k] == data[k]
    {
      BlocksApart(s, b, c);
      CopiedAt(data, b, a, n, k);
    }
  }

  lemma Exchanged(m: map<nat, nat>, m': map<nat, nat>, a: nat, b: nat)
    requires b !in m && a in m && b in m' && m' == m[b := m'[b]]
    ensures m' - {a} == (m - {a})[b := m'[b]]
    ensures m' - {b} == m && a in m' && m'[a] == m[a]
  {
  }

  class Heap {
    const npages: nat
    const zonePages: nat
    const pages: Allocator
    const usage: array<Usage>
    /** What the blocks' owners see; the bookkeeping is kept beside it. */
    const data: array<bv8>
    var zones: map<nat, Zone>
    var buckets: map<nat, seq<nat>>
    var spares: seq<nat>
    var spareCount: nat
    var usedMem: int
    var maxMem: int
    ghost var taken: map<nat, set<nat>>
    ghost var regions: map<nat, Region>
    ghost var owner: map<int, int>

    ghost function Now(): State
      reads this, pages, usage
    {
      State(npages, zonePages, Layout(pages.runs, regions, owner), zones, taken, buckets, spares, usage[..])
    }

    /** A byte for every address, apart from the bookkeeping. */
    ghost predicate Roomy() {
      data.Length == npages * PAGE && (data as object) !in {this as object, pages, usage}
    }

    ghost predicate Kept()
      reads this, pages, usage
    {
      Broken(Now()) == {} && spareCount == |spares| <= RELEASE_THRESHOLD && Roomy()
    }

    /** The books are kept, and used_mem is the bytes handed out. */
    ghost predicate Valid()
      reads this, pages, usage
    {
      Kept() && usedMem == Total(Blocks(Now())) && usedMem <= maxMem
    }

    /** A block added to those there were is counted. */
    method AddUsed(n: nat, ghost before: map<nat, nat>, ghost a: nat)
      requires Kept() && usedMem == Total(before) <= maxMem && a !in before && Blocks(Now()) == before[a := n]
      modifies this`usedMem, this`maxMem
      ensures Valid() && Now() == old(Now()) && maxMem == Max(old(maxMem), usedMem)
    {
      TotalWith(before, a, n);
      usedMem := usedMem + n;
      if usedMem > maxMem {
        maxMem := usedMem;
      }
    }

    /** rt_system_heap_init on a heap of npages pages. */
    constructor (npages: nat)
      requires npages > 0
      ensures Valid() && Blocks(Now()) == map[] && this.npages == npages && usedMem == 0 && maxMem == 0
      ensures zonePages > 8 ==> zonePages * PAGE < npages * PAGE / 1024
      ensures npages > PageCount(npages * 4) ==>
                pages.runs == [PageList.Run(PageCount(npages * 4), npages - PageCount(npages * 4))]
      ensures fresh(pages) && fresh(usage) && fresh(data)
    {
      this.npages := npages;
      var zoneSize := ZoneSize(npages * PAGE);
      zonePages := zoneSize / PAGE;
      var list := new Allocator(0, npages);
      var n := PageCount(npages * 4);
      WholePages(npages * 4);
      var b := list.Alloc(n);
      pages := list;
      usage := new Usage[npages](_ => Usage(Unused, 0));
      data := new bv8[npages * PAGE];
      zones, buckets := map[], NoBuckets();
      spares, spareCount := [], 0;
      usedMem, maxMem := 0, 0;
      taken, regions := map[], map[0 := Region(Table, n)];
      owner := FirstOwner(npages, n);
      new;
      EmptyIsSound(npages, zonePages, n, pages.runs, usage[..]);
      assert Now() == Empty(npages, zonePages, n, pages.runs, usage[..]);
    }

    method Discount(n: nat)
      requires Kept()
      modifies this`usedMem
      ensures usedMem == old(usedMem) - n && Now() == old(Now()) && Kept()
    {
      ghost var s := Now();
      usedMem := usedMem - n;
      assert Now() == s;
    }

    /** Large requests get whole pages. */
    method MallocLarge(size: nat) returns (p: Pointer)
      requires Kept() && size > 0
      modifies this`regions, this`owner, pages, usage
      ensures Kept()
      ensures p == PagesFor(old(Now()), PageCount(size))
      ensures p == Null ==> Blocks(Now()) == old(Blocks(Now()))
      ensures p.To? ==> p.addr !in old(Blocks(Now()))
      ensures p.To? ==> Blocks(Now()) == old(Blocks(Now()))[p.addr := PageCount(size) * PAGE]
    {
      ghost var s := Now();
      Intact(s);
      WholePages(size);
      var n := PageCount(size);
      var b := pages.Alloc(n);
      if b == Nothing {
        assert Now() == s;
        return Null;
      }
      GrantLarge(b.page, n, s);
      p := To(b.page * PAGE);
    }

    /** Pages just taken off the free list become a large block. */
    method GrantLarge(r: nat, n: nat, ghost s: State)
      requires Broken(s) == {} && Now() == s.(layout := s.layout.(runs := pages.runs))
               && spareCount == |spares| <= RELEASE_THRESHOLD
      requires n > 0 && Extent(r, n) <= Pages(s.layout.runs) && Canonical(pages.runs, 0)
      requires Pages(pages.runs) == Pages(s.layout.runs) - Extent(r, n)
      requires Roomy()
      modifies this`regions, this`owner, usage
      ensures Kept() && r * PAGE !in Blocks(s) && Blocks(Now()) == Blocks(s)[r * PAGE := n * PAGE]
    {
      LargeOutBlocks(s, r, n, pages.runs);
      usage[r] := Usage(LargePages, n);
      regions, owner := regions[r := Region(Large, n)], Assigned(owner, r, n, r);
      assert Now() == LargeOut(s, r, n, pages.runs);
    }

    /** A chunk from the first zone of a bucket. */
    method TakeChunk(z: nat, list: seq<nat>) returns (addr: nat)
      requires Kept() && z in zones && zones[z].nfree > 0 && zones[z].index in buckets
      requires buckets[zones[z].index] == list && list != [] && list[0] == z
      modifies this`zones, this`buckets, this`taken
      ensures Kept() && addr !in old(Blocks(Now()))
      ensures Blocks(Now()) == old(Blocks(Now()))[addr := old(zones)[z].size]
      ensures addr == Picked(old(zones)[z]) && zones == old(zones)[z := AfterPick(old(zones)[z])]
    {
      ghost var s := Now();
      Intact(s);
      ZoneOf(zonePages, zones, taken, z);
      PickKeeps(zonePages, z, zones[z], taken[z]);
      var c, after;
      c := zones[z];
      addr, after := Pick(c);
      var rest := if after.nfree == 0 then list[1..] else list;
      ChunkOutBlocks(s, z, after, addr, list);
      zones, buckets := zones[z := after], buckets[c.index := rest];
      taken := taken[z := taken[z] + {addr}];
      assert Now() == ZoneNow(s, z, after, s.taken[z] + {addr}, rest);
    }

    /** A chunk from a new zone: a spare one, or one made of free pages. */
    method OpenZone(index: nat, size: nat) returns (p: Pointer)
      requires Kept() && index < NZONES && size == ChunkSize(index) && Served(zonePages, size)
      modifies this`zones, this`buckets, this`taken, this`spares, this`spareCount, this`regions, this`owner
      modifies pages, usage
      ensures Kept()
      ensures p == ZoneFor(old(Now()), size)
      ensures p == Null ==> Blocks(Now()) == old(Blocks(Now()))
      ensures p.To? ==> p.addr !in old(Blocks(Now())) && Blocks(Now()) == old(Blocks(Now()))[p.addr := size]
    {
      if spares != [] {
        var addr := OpenSpareZone(index, size);
        return To(addr);
      }
      p := OpenFreshZone(index, size);
    }

    /** The first spare zone is put to use; the descriptors of its pages are still right. */
    method OpenSpareZone(index: nat, size: nat) returns (addr: nat)
      requires Kept() && index < NZONES && size == ChunkSize(index) && Served(zonePages, size) && spares != []
      modifies this`zones, this`buckets, this`taken, this`spares, this`spareCount, this`regions
      ensures Kept() && addr !in old(Blocks(Now())) && Blocks(Now()) == old(Blocks(Now()))[addr := size]
      ensures addr == old(spares)[0] * PAGE + Offset(size)
    {
      ghost var s := Now();
      Intact(s);
      OpenSpareBlocks(s, index, size);
      var z := spares[0];
      regions := regions[z := regions[z].(kind := InUse)];
      spares, spareCount := spares[1..], spareCount - 1;
      addr := SetUp(z, index, size);
      assert Now() == Opened(s, z, Rekinded(s.layout, z, InUse), s.spares[1..], s.usage, index, size);
    }

    /** The header of a new zone, its first chunk, and its place at the front of its bucket. */
    method SetUp(z: nat, index: nat, size: nat) returns (addr: nat)
      requires size > 0 && Count(zonePages, size) > 0 && index in buckets
      modifies this`zones, this`buckets, this`taken
      ensures var c := NewZone(zonePages, z, index, size);
              && zones == old(zones)[z := c] && taken == old(taken)[z := {c.base}] && addr == c.base
              && buckets == old(buckets)[index := [z] + old(buckets)[index]]
    {
      var off := RoundUp(HEADER, if PowerOfTwo(size) then size else MIN_CHUNK);
      var nmax := Count(zonePages, size);
      var c := Zone(nmax - 1, nmax, 0, size, index, z * PAGE + off, []);
      addr := c.base + c.uindex * size;
      zones := zones[z := c];
      taken := taken[z := {c.base}];
      buckets := buckets[index := [z] + buckets[index]];
    }

    method OpenFreshZone(index: nat, size: nat) returns (p: Pointer)
      requires Kept() && index < NZONES && size == ChunkSize(index) && Served(zonePages, size)
      modifies this`zones, this`buckets, this`taken, this`spares, this`spareCount, this`regions, this`owner
      modifies pages, usage
      ensures Kept()
      ensures var z := PagesFor(old(Now()), zonePages); p == if z.To? then To(z.addr + Offset(size)) else Null
      ensures p == Null ==> Blocks(Now()) == old(Blocks(Now()))
      ensures p.To? ==> p.addr !in old(Blocks(Now())) && Blocks(Now()) == old(Blocks(Now()))[p.addr := size]
    {
      ghost var s := Now();
      Intact(s);
      var b := pages.Alloc(zonePages);
      if b == Nothing {
        assert Now() == s;
        return Null;
      }
      var addr := Furnish(b.page, index, size, s);
      p := To(addr);
    }

    /** Pages just taken off the free list become a zone. */
    method Furnish(z: nat, index: nat, size: nat, ghost s: State) returns (addr: nat)
      requires Broken(s) == {} && Now() == s.(layout := s.layout.(runs := pages.runs))
               && spareCount == |spares| <= RELEASE_THRESHOLD
      requires index < NZONES && size == ChunkSize(index) && Served(zonePages, size)
      requires Extent(z, zonePages) <= Pages(s.layout.runs) && Canonical(pages.runs, 0)
      requires Pages(pages.runs) == Pages(s.layout.runs) - Extent(z, zonePages)
      requires Roomy()
      modifies this`zones, this`buckets, this`taken, this`regions, this`owner, usage
      ensures addr == z * PAGE + Offset(size)
      ensures Kept() && addr !in Blocks(s) && Blocks(Now()) == Blocks(s)[addr := size]
    {
      FurnishFacts(s, z);
      OpenFreshBlocks(s, z, pages.runs, index, size);
      DescribeZone(z, s);
      addr := SetUp(z, index, size);
      ghost var f := FreshZone(s, z, pages.runs);
      assert Now() == Opened(s, z, f.layout, s.spares, f.usage, index, size);
    }

    /** Region and descriptors of a new zone. */
    method DescribeZone(z: nat, ghost s: State)
      requires Now() == s.(layout := s.layout.(runs := pages.runs)) && z + zonePages <= usage.Length
      modifies this`regions, this`owner, usage
      ensures Now() == FreshZone(s, z, pages.runs)
    {
      Mark(z, Small);
      regions, owner := regions[z := Region(InUse, zonePages)], Assigned(owner, z, zonePages, z);
    }

    /** The descriptors of the pages of a zone. */
    method Mark(z: nat, kind: UsageType)
      requires z + zonePages <= usage.Length
      modifies usage
      ensures usage[..] == Marked(old(usage[..]), z, zonePages, kind)
    {
      var off := 0;
      while off < zonePages
        invariant off <= zonePages
        invariant usage[..] == Marked(old(usage[..]), z, off, kind)
      {
        usage[z + off] := if kind == Small then Usage(Small, off) else Usage(Unused, 0);
        off := off + 1;
      }
    }

    /** rt_malloc: null if nothing was asked for, otherwise a new block of the size the request is
        given, exactly where it is found, or null if it is found nowhere. */
    method Malloc(size: nat) returns (p: Pointer)
      requires Valid()
      modifies this, pages, usage
      ensures Valid() && maxMem == Max(old(maxMem), usedMem)
      ensures p == if size == 0 then Null else Found(old(Now()), size)
      ensures p == Null ==> Blocks(Now()) == old(Blocks(Now()))
      ensures p.To? ==> p.addr !in old(Blocks(Now())) && size <= Given(zonePages, size)
      ensures p.To? ==> Blocks(Now()) == old(Blocks(Now()))[p.addr := Given(zonePages, size)]
    {
      if size == 0 {
        return Null;
      }
      ghost var before := Blocks(Now());
      if size >= ZoneLimit(zonePages) {
        WholePages(size);
        p := MallocLarge(size);
        if p.To? {
          AddUsed(PageCount(size) * PAGE, before, p.addr);
        }
        return;
      }
      p := MallocSmall(size);
      if p.To? {
        AddUsed(ZoneIndex(size).size, before, p.addr);
      }
    }

    /** The branch of rt_malloc that serves a request with a chunk. */
    method MallocSmall(size: nat) returns (p: Pointer)
      requires Kept() && 0 < size < ZoneLimit(zonePages)
      modifies this`zones, this`buckets, this`taken, this`spares, this`spareCount, this`regions, this`owner
      modifies pages, usage
      ensures Kept() && p == Found(old(Now()), size)
      ensures p == Null ==> Blocks(Now()) == old(Blocks(Now()))
      ensures p.To? ==> p.addr !in old(Blocks(Now())) && size <= ZoneIndex(size).size
      ensures p.To? ==> Blocks(Now()) == old(Blocks(Now()))[p.addr := ZoneIndex(size).size]
    {
      var b := ZoneIndex(size);
      Intact(Now());
      BestFit(size);
      LimitServed(size);
      HasBucket(Now(), b.index);
      BucketOf(zones, buckets, b.index);
      if buckets[b.index] != [] {
        var z := buckets[b.index][0];
        ZoneOf(zonePages, zones, taken, z);
        var addr := TakeChunk(z, buckets[b.index]);
        return To(addr);
      }
      p := OpenZone(b.index, b.size);
    }

    /** Below the limit, the chunk size fits four times into a zone. */
    lemma LimitServed(size: nat)
      requires zonePages in {8, 16, 32} && 0 < size < ZoneLimit(zonePages)
      ensures size < 16384 && Served(zonePages, ZoneIndex(size).size)
    {
      BestFit(size);
      ghost var q := Steps(size, Step(size));
    }

    /** rt_free of a large block. */
    method FreeLarge(ghost r: nat, addr: nat)
      requires Kept() && r in regions && regions[r].kind == Large && addr == r * PAGE
      modifies this`regions, this`owner, pages, usage
      ensures Kept() && Blocks(Now()) == old(Blocks(Now())) - {addr} && FreeDone(old(Now()), addr, Now())
    {
      ghost var s := Now();
      Intact(s);
      FindLarge(s, r);
      RegionIsUsed(s.layout, npages, r);
      RegionOf(s.layout, r);
      var page := addr / PAGE;
      var n := usage[page].size;
      usage[page] := usage[page].(size := 0);
      pages.Free(page, n);
      LargeBackBlocks(s, r, pages.runs);
      regions, owner := regions - {r}, Assigned(owner, r, n, FREE);
      assert Now() == LargeBack(s, r, pages.runs);
    }

    /** rt_free of a chunk, up to putting the zone back in its bucket. */
    method GiveChunk(z: nat, addr: nat)
      requires Kept() && z in zones && z in taken && addr in taken[z]
      modifies this`zones, this`buckets, this`taken
      ensures Kept() && Blocks(Now()) == old(Blocks(Now())) - {addr}
      ensures zones == old(zones)[z := GivenBack(old(zones)[z], addr)]
              && taken == old(taken)[z := old(taken)[z] - {addr}]
      ensures var c := old(zones)[z];
              c.index in old(buckets) && buckets == old(buckets)[c.index :=
                  if c.nfree == 0 then [z] + old(buckets)[c.index] else old(buckets)[c.index]]
    {
      ghost var s := Now();
      var c := zones[z];
      ChunkBackBlocks(s, z, addr);
      var list := if c.nfree == 0 then [z] + buckets[c.index] else buckets[c.index];
      zones, buckets := zones[z := c.(free := [addr] + c.free, nfree := c.nfree + 1)], buckets[c.index := list];
      taken := taken[z := taken[z] - {addr}];
      assert Now() == ZoneNow(s, z, GivenBack(c, addr), s.taken[z] - {addr}, list);
    }

    /** A zone without chunks in use leaves its bucket and is kept spare. */
    method SpareZone(z: nat)
      requires Kept() && z in zones && z in taken && taken[z] == {}
      modifies this`zones, this`buckets, this`taken, this`regions, this`spares, this`spareCount
      ensures Broken(Now()) == {} && Blocks(Now()) == old(Blocks(Now())) && spares == [z] + old(spares)
              && spareCount == |spares|
      ensures zones == old(zones) - {z} && old(zones)[z].index in old(buckets)
      ensures buckets == old(buckets)[old(zones)[z].index := Without(old(buckets)[old(zones)[z].index], z)]
    {
      ghost var s := Now();
      Intact(s);
      SpareBlocks(s, z);
      var zi := zones[z].index;
      buckets := buckets[zi := Without(buckets[zi], z)];
      spares, spareCount := [z] + spares, spareCount + 1;
      zones, taken := zones - {z}, taken - {z};
      regions := regions[z := regions[z].(kind := Spare)];
      assert Now() == Spared(s, z);
    }

    /** The first spare zone's pages go back to the page allocator. */
    method ReleaseSpare()
      requires Broken(Now()) == {} && spares != [] && spareCount == |spares|
      modifies this`regions, this`owner, this`spares, this`spareCount, pages, usage
      ensures Broken(Now()) == {} && Blocks(Now()) == old(Blocks(Now()))
      ensures spares == old(spares)[1..] && spareCount == |spares|
      ensures Pages(pages.runs) == old(Pages(pages.runs)) + Extent(old(spares)[0], zonePages)
    {
      ghost var s := Now();
      Intact(s);
      FirstSpare(s);
      var z := spares[0];
      RegionSize(s, z);
      RegionIsUsed(s.layout, npages, z);
      SpareInRange(s, z);
      spares, spareCount := spares[1..], spareCount - 1;
      Mark(z, Unused);
      pages.Free(z, zonePages);
      ReleaseBlocks(s, pages.runs);
      regions, owner := regions - {z}, Assigned(owner, z, zonePages, FREE);
      assert Now() == Released(s, pages.runs);
    }

    /** rt_free. */
    method Free(addr: nat)
      requires Valid() && addr in Blocks(Now())
      modifies this, pages, usage
      ensures Valid() && Blocks(Now()) == old(Blocks(Now())) - {addr} && maxMem == old(maxMem)
      ensures FreeDone(old(Now()), addr, Now())
    {
      ghost var small, r := FreeFacts(Now(), addr);
      var kup := usage[addr / PAGE];
      if kup.kind == LargePages {
        DropLarge(r, addr);
        return;
      }
      DropChunk(addr / PAGE - kup.size, addr);
    }

    /** A large block is no longer counted, and freed. */
    method DropLarge(ghost r: nat, addr: nat)
      requires Valid() && r in regions && regions[r].kind == Large && addr == r * PAGE && r < usage.Length
      requires usage[r].kind == LargePages && addr / PAGE == r
      requires Total(Blocks(Now()) - {addr}) == Total(Blocks(Now())) - usage[r].size * PAGE
      modifies this, pages, usage
      ensures Valid() && Blocks(Now()) == old(Blocks(Now())) - {addr} && maxMem == old(maxMem)
      ensures FreeDone(old(Now()), addr, Now())
    {
      Discount(usage[addr / PAGE].size * PAGE);
      FreeLarge(r, addr);
    }

    /** A chunk is no longer counted, and freed. */
    method DropChunk(z: nat, addr: nat)
      requires Valid() && z in zones && z in taken && addr in taken[z]
      requires Total(Blocks(Now()) - {addr}) == Total(Blocks(Now())) - zones[z].size
      modifies this, pages, usage
      ensures Valid() && Blocks(Now()) == old(Blocks(Now())) - {addr} && maxMem == old(maxMem)
      ensures ChunkDone(old(Now()), z, addr, Now())
    {
      Discount(zones[z].size);
      FreeChunk(z, addr);
    }

    /** rt_free of a chunk. */
    method FreeChunk(z: nat, addr: nat)
      requires Kept() && z in zones && z in taken && addr in taken[z]
      modifies this`zones, this`buckets, this`taken, this`spares, this`spareCount, this`regions, this`owner
      modifies pages, usage
      ensures Kept() && Blocks(Now()) == old(Blocks(Now())) - {addr}
      ensures ChunkDone(old(Now()), z, addr, Now())
    {
      GiveChunk(z, addr);
      ZoneIdle(Now(), z);
      var c := zones[z];
      if c.nfree == c.nmax && buckets[c.index] != [z] {
        Retire(z);
      }
    }

    /** A zone without chunks in use is kept spare, unless there are enough of them. */
    method Retire(z: nat)
      requires Kept() && z in zones && z in taken && taken[z] == {}
      modifies this`zones, this`buckets, this`taken, this`spares, this`spareCount, this`regions, this`owner
      modifies pages, usage
      ensures Kept() && Blocks(Now()) == old(Blocks(Now()))
      ensures zones == old(zones) - {z} && old(zones)[z].index in old(buckets)
      ensures buckets == old(buckets)[old(zones)[z].index := Without(old(buckets)[old(zones)[z].index], z)]
      ensures if |old(spares)| < RELEASE_THRESHOLD then spares == [z] + old(spares) && pages.runs == old(pages.runs)
              else spares == old(spares) && Pages(pages.runs) == old(Pages(pages.runs)) + Extent(z, zonePages)
    {
      SpareZone(z);
      if spareCount > RELEASE_THRESHOLD {
        ReleaseSpare();
      }
    }

    /** rt_realloc: the same chunk if the size asks for the same kind of chunk, otherwise a new
        block in place of the old one, with as many of its bytes as fit. */
    method Realloc(p: Pointer, size: nat) returns (q: Pointer)
      requires Valid() && (p.To? ==> p.addr in Blocks(Now()))
      modifies this, pages, usage, data
      ensures Valid()
      ensures p == Null ==> q == if size == 0 then Null else Found(old(Now()), size)
      ensures p == Null && q == Null ==> Blocks(Now()) == old(Blocks(Now()))
      ensures p == Null && q.To? ==> q.addr !in old(Blocks(Now())) && size <= Given(zonePages, size)
      ensures p == Null && q.To? ==> Blocks(Now()) == old(Blocks(Now()))[q.addr := Given(zonePages, size)]
      ensures p.To? && size == 0 ==> q == Null && Blocks(Now()) == old(Blocks(Now())) - {p.addr}
      ensures p.To? && size > 0 ==> size <= Asked(old(Now()), p.addr, size)
      ensures p.To? && size > 0 ==> Resized(old(Now()), p.addr, Asked(old(Now()), p.addr, size), q, Blocks(Now()))
      ensures if p == Null || q == Null then data[..] == old(data[..])
              else Moved(old(data[..]), data[..], old(Blocks(Now())), p.addr, q.addr, size)
    {
      if p == Null {
        q := Malloc(size);
        return;
      }
      if size == 0 {
        Free(p.addr);
        return Null;
      }
      q := Resize(p.addr, size);
    }

    /** rt_realloc of a block to some size. */
    method Resize(addr: nat, size: nat) returns (q: Pointer)
      requires Valid() && addr in Blocks(Now()) && size > 0
      modifies this, pages, usage, data
      ensures Valid() && size <= Asked(old(Now()), addr, size)
      ensures Resized(old(Now()), addr, Asked(old(Now()), addr, size), q, Blocks(Now()))
      ensures if q == Null then data[..] == old(data[..])
              else Moved(old(data[..]), data[..], old(Blocks(Now())), addr, q.addr, size)
    {
      ghost var s := Now();
      var chunk, want, osize := Measure(addr, size);
      if chunk && osize == want {
        StaysPut(s, data[..], addr, want, size);
        return To(addr);
      }
      q := Replace(addr, want, osize);
      if q.To? {
        MovedLess(old(data[..]), data[..], old(Blocks(Now())), addr, q.addr, want, size);
      }
    }

    /** Whether the block is a chunk, what is asked for, and what it has. */
    method Measure(addr: nat, size: nat) returns (chunk: bool, want: nat, osize: nat)
      requires Valid() && addr in Blocks(Now()) && size > 0
      ensures chunk == IsChunk(Now(), addr) && size <= want == Asked(Now(), addr, size) && osize == Blocks(Now())[addr]
    {
      AskedFacts(Now(), addr, size);
      var kup := usage[addr / PAGE];
      chunk, want, osize := kup.kind == Small, size, kup.size * PAGE;
      if chunk {
        want := ZoneIndex(size).size;
        osize := zones[addr / PAGE - kup.size].size;
      }
    }

    /** A new block in place of an old one. */
    method Replace(addr: nat, want: nat, osize: nat) returns (q: Pointer)
      requires Valid() && addr in Blocks(Now()) && 0 < want && osize == Blocks(Now())[addr]
      modifies this, pages, usage, data
      ensures Valid()
      ensures q == Found(old(Now()), want)
      ensures q == Null ==> Blocks(Now()) == old(Blocks(Now())) && data[..] == old(data[..])
      ensures q.To? ==> q.addr !in old(Blocks(Now())) && q.addr + want <= data.Length
      ensures q.To? ==> addr + osize <= data.Length
      ensures q.To? ==> Blocks(Now()) == (old(Blocks(Now())) - {addr})[q.addr := Given(zonePages, want)]
      ensures q.To? ==> Moved(old(data[..]), data[..], old(Blocks(Now())), addr, q.addr, want)
    {
      ghost var blocks := Blocks(Now());
      q := Malloc(want);
      if q.To? {
        Exchanged(blocks, Blocks(Now()), addr, q.addr);
        Carry(addr, q.addr, Min(want, osize), blocks);
        StillUntouched(old(data[..]), data[..], blocks, addr);
        Free(addr);
      }
    }

    /** Copies n bytes of a block into another one that was just added to the blocks there were. */
    method Carry(addr: nat, dst: nat, n: nat, ghost blocks: map<nat, nat>)
      requires Valid() && addr in blocks && dst !in blocks && dst in Blocks(Now()) && blocks == Blocks(Now()) - {dst}
      requires n <= blocks[addr] && n <= Blocks(Now())[dst]
      modifies data
      ensures Valid() && Now() == old(Now())
      ensures dst + Blocks(Now())[dst] <= data.Length && addr + blocks[addr] <= data.Length
      ensures Bytes(data[..], dst, n) == Bytes(old(data[..]), addr, n)
      ensures Untouched(old(data[..]), data[..], blocks)
    {
      ghost var s := Now();
      CopyAside(s, data[..], addr, dst, n);
      BlockInHeap(s, addr);
      BlockInHeap(s, dst);
      MemCpy(data, dst, addr, n);
      assert Now() == s;
    }
  }

  /** The block at a given room for want bytes: left alone if it is a chunk of that size, moved
      if there is something to move it to, and kept otherwise. */
  ghost predicate Resized(s: State, a: nat, want: nat, q: Pointer, blocks: map<nat, nat>)
    requires want > 0
  {
    if a in Blocks(s) && Blocks(s)[a] == want && IsChunk(s, a) then
      q == To(a) && blocks == Blocks(s)
    else if Found(s, want) == Null then q == Null && blocks == Blocks(s)
    else q == Found(s, want) && q.addr !in Blocks(s) && blocks == (Blocks(s) - {a})[q.addr := Given(s.zonePages, want)]
  }

  /** A chunk that is the smallest to hold the new size stays where it is. */
  lemma StaysInClass(s: State, a: nat, size: nat, i: nat, q: Pointer, blocks: map<nat, nat>)
    requires 0 < size < 16384 && a in Blocks(s) && IsChunk(s, a) && i < NZONES
    requires Blocks(s)[a] == ChunkSize(i) >= size && (i > 0 ==> ChunkSize(i - 1) < size)
    requires Resized(s, a, Asked(s, a, size), q, blocks)
    ensures q == To(a) && blocks == Blocks(s)
  {
    BestFit(size);
    var j := ZoneIndex(size).index;
    if i < j {
      BelowPrevious(i, j);
    } else if j < i {
      BelowPrevious(j, i);
    }
  }

  lemma BelowPrevious(i: nat, j: nat)
    requires i < j
    ensures ChunkSize(i) <= ChunkSize(j - 1)
  {
    if i < j - 1 {
      ChunkSizesGrow(i, j - 1);
    }
  }

  /** The common prefix of the block at a is now at b, and the other blocks read as before. */
  ghost predicate Moved(before: seq<bv8>, after: seq<bv8>, blocks: map<nat, nat>, a: nat, b: nat, size: nat)
    requires a in blocks
  {
    var n := Min(size, blocks[a]);
    Bytes(after, b, n) == Bytes(before, a, n) && Untouched(before, after, blocks - {a})
  }

  lemma MovedLess(before: seq<bv8>, after: seq<bv8>, blocks: map<nat, nat>, a: nat, b: nat, want: nat, size: nat)
    requires a in blocks && Moved(before, after, blocks, a, b, want) && size <= want
    requires a + blocks[a] <= |before| && b + want <= |after|
    ensures Moved(before, after, blocks, a, b, size)
  {
    ShorterBytes(after, before, b, a, Min(want, blocks[a]), Min(size, blocks[a]));
  }

  lemma ZoneIdle(s: State, z: nat)
    requires Broken(s) == {} && z in s.zones && z in s.taken
    ensures s.zones[z].index in s.buckets && (s.zones[z].nfree == s.zones[z].nmax <==> s.taken[z] == {})
  {
    Intact(s);
    ZoneBooks(s, z);
    ZoneOf(s.zonePages, s.zones, s.taken, z);
    HasBucket(s, s.zones[z].index);
    FreeCount(s.zonePages, z, s.zones[z], s.taken[z]);
  }

  lemma SpareInRange(s: State, z: nat)
    requires Sound(s) && z in s.layout.regions && s.layout.regions[z].kind == Spare
    ensures z + s.zonePages <= |s.usage|
  {
    RegionSize(s, z);
    UsageOf(s.layout.regions, s.usage, z);
    assert Within(z + s.zonePages - 1, z, s.zonePages);
  }

  /** A chunk given back; a zone that had none puts itself at the front of its bucket. */
  lemma ChunkReturns(s: State, z: nat, a: nat)
    requires Sound(s) && z in s.zones && z in s.taken && a in s.taken[z]
    ensures s.zones[z].index in s.buckets
    ensures var c := s.zones[z];
            var list := if c.nfree == 0 then [z] + s.buckets[c.index] else s.buckets[c.index];
            var s' := ZoneNow(s, z, GivenBack(c, a), s.taken[z] - {a}, list);
            Sound(s') && Live(s') == Live(s) - {a}
  {
    var c := s.zones[z];
    ZoneOf(s.zonePages, s.zones, s.taken, z);
    HasBucket(s, c.index);
    BucketOf(s.zones, s.buckets, c.index);
    GiveBack(s.zonePages, z, c, s.taken[z], a);
    var list := if c.nfree == 0 then [z] + s.buckets[c.index] else s.buckets[c.index];
    assert ([z] + s.buckets[c.index])[1..] == s.buckets[c.index];
    ZoneNowKeeps(s, z, GivenBack(c, a), s.taken[z] - {a}, list);
    LiveTaken(s, z, GivenBack(c, a), a, list);
  }

  lemma FurnishFacts(s: State, z: nat)
    requires Broken(s) == {} && Extent(z, s.zonePages) <= Pages(s.layout.runs)
    ensures z + s.zonePages <= |s.usage|
  {
    Intact(s);
    FreshInRange(s, z);
  }

  lemma FreshInRange(s: State, z: nat)
    requires Sound(s) && Extent(z, s.zonePages) <= Pages(s.layout.runs)
    ensures z + s.zonePages <= |s.usage|
  {
    var p := z + s.zonePages - 1;
    assert Within(p, z, s.zonePages) && p in Extent(z, s.zonePages);
    PageExists(s, p);
  }

  /** Fresh room is used up before chunks given back. */
  function Picked(c: Zone): nat {
    if c.uindex + 1 != c.nmax then c.base + (c.uindex + 1) * c.size else if c.free != [] then c.free[0] else 0
  }

  function AfterPick(c: Zone): Zone {
    if c.nfree == 0 then c
    else if c.uindex + 1 != c.nmax then FreshTaken(c) else if c.free != [] then ReusedTaken(c) else c
  }

  /** The chunk a zone with a free count hands out next. */
  method Pick(c: Zone) returns (addr: nat, after: Zone)
    requires c.nfree > 0 && (c.uindex + 1 == c.nmax ==> c.free != [])
    ensures addr == Picked(c) && after == AfterPick(c)
  {
    after := c.(nfree := c.nfree - 1);
    if c.uindex + 1 != c.nmax {
      after := after.(uindex := c.uindex + 1);
      addr := c.base + after.uindex * c.size;
    } else {
      addr := c.free[0];
      after := after.(free := c.free[1..]);
    }
  }

  lemma PickKeeps(zonePages: nat, z: nat, c: Zone, used: set<nat>)
    requires ZoneAt(zonePages, z, c, used) && c.nfree > 0
    ensures c.uindex + 1 == c.nmax ==> c.free != []
    ensures Picked(c) !in used && ZoneAt(zonePages, z, AfterPick(c), used + {Picked(c)})
    ensures AfterPick(c).nfree == c.nfree - 1 && AfterPick(c).index == c.index && AfterPick(c).size == c.size
  {
    if c.uindex + 1 != c.nmax {
      TakeFresh(zonePages, z, c, used);
    } else {
      TakeReused(zonePages, z, c, used);
    }
  }

  /** Handing out a chunk, whichever it is; a zone without free chunks leaves its bucket. */
  lemma ChunkLeaves(s: State, z: nat, c: Zone, a: nat, list: seq<nat>)
    requires Sound(s) && z in s.zones && s.zones[z].nfree > 0 && c.nfree == s.zones[z].nfree - 1
    requires c.index == s.zones[z].index && z in s.taken && ZoneAt(s.zonePages, z, c, s.taken[z] + {a})
             && a !in s.taken[z]
    requires c.index in s.buckets && s.buckets[c.index] == list && list != [] && list[0] == z
    ensures var rest := if c.nfree == 0 then list[1..] else list;
            Sound(ZoneNow(s, z, c, s.taken[z] + {a}, rest))
                && Live(ZoneNow(s, z, c, s.taken[z] + {a}, rest)) == Live(s) + {a}
    ensures a !in Live(s)
  {
    BucketOf(s.zones, s.buckets, c.index);
    HeadFacts(list);
    var rest := if c.nfree == 0 then list[1..] else list;
    forall x ensures x in list[1..] <==> x in list && x != z {
      assert x in list[1..] <==> x in Elements(list[1..]);
      assert x in list <==> x in Elements(list);
    }
    ZoneNowKeeps(s, z, c, s.taken[z] + {a}, rest);
    LiveTaken(s, z, c, a, rest);
    NotYetLive(s, ZoneNow(s, z, c, s.taken[z] + {a}, rest), z, a);
  }

  /** What becomes live was not live: its descriptor leads to one zone only. */
  lemma NotYetLive(s: State, s': State, z: nat, a: nat)
    requires Sound(s) && Sound(s') && z in s'.taken && a in s'.taken[z] && z in s.taken && a !in s.taken[z]
    requires s'.layout == s.layout && s'.usage == s.usage
    ensures a !in Live(s)
  {
    FindZone(s', z, a);
    forall y | y in s.taken ensures a !in s.taken[y] {
      if a in s.taken[y] {
        FindZone(s, y, a);
      }
    }
    forall r | r in Starts(s.layout.regions, Large) ensures r * PAGE != a {
      FindLarge(s, r);
    }
  }

  /** What a user of the heap may ask for next. */
  datatype Request = Ask(size: nat) | Give(a: nat) | Alter(a: nat, size: nat)

  /** Any requests in any order from a new heap on, each about a block that is held: what is held
      is exactly what was handed out. */
  method Run(npages: nat, requests: seq<Request>) returns (h: Heap, held: set<nat>)
    requires npages > 0
    ensures h.Valid() && held == Blocks(h.Now()).Keys && h.usedMem == Total(Blocks(h.Now()))
    ensures forall a, b :: a in held && b in held && a != b ==>
              a + Blocks(h.Now())[a] <= b || b + Blocks(h.Now())[b] <= a
  {
    h := new Heap(npages);
    held := {};
    for i := 0 to |requests|
      invariant h.Valid() && fresh(h) && fresh(h.pages) && fresh(h.usage) && fresh(h.data)
      invariant held == Blocks(h.Now()).Keys
    {
      held := Serve(h, requests[i], held);
    }
    forall a, b | a in held && b in held && a != b
      ensures a + Blocks(h.Now())[a] <= b || b + Blocks(h.Now())[b] <= a
    {
      BlocksApart(h.Now(), a, b);
    }
  }

  method Serve(h: Heap, r: Request, held: set<nat>) returns (after: set<nat>)
    requires h.Valid() && held == Blocks(h.Now()).Keys
    modifies h, h.pages, h.usage, h.data
    ensures h.Valid() && after == Blocks(h.Now()).Keys
  {
    after := held;
    match r {
      case Ask(size) =>
        var p := h.Malloc(size);
        after := if p.To? then held + {p.addr} else held;
      case Give(a) =>
        if a in held {
          h.Free(a);
          after := held - {a};
        }
      case Alter(a, size) =>
        if a in held {
          after := ServeAlter(h, a, size, held);
        }
    }
  }

  method ServeAlter(h: Heap, a: nat, size: nat, held: set<nat>) returns (after: set<nat>)
    requires h.Valid() && held == Blocks(h.Now()).Keys && a in held
    modifies h, h.pages, h.usage, h.data
    ensures h.Valid() && after == Blocks(h.Now()).Keys
  {
    ghost var s := h.Now();
    var q := h.Realloc(To(a), size);
    after := if q.To? then held - {a} + {q.addr} else if size == 0 then held - {a} else held;
    if size > 0 {
      ResizedKeys(s, a, Asked(s, a, size), q, Blocks(h.Now()));
    }
  }

  lemma ResizedKeys(s: State, a: nat, want: nat, q: Pointer, blocks: map<nat, nat>)
    requires want > 0 && a in Blocks(s) && Resized(s, a, want, q, blocks)
    ensures blocks.Keys == if q.To? then Blocks(s).Keys - {a} + {q.addr} else Blocks(s).Keys
  {
  }

  /** A heap of at most 1024 pages has one page of descriptors and zones of 8 pages. */
  lemma SmallHeap(npages: nat, zonePages: nat)
    requires 0 < npages <= 1024 && zonePages in {8, 16, 32}
    requires zonePages > 8 ==> zonePages * PAGE < npages * PAGE / 1024
    ensures PageCount(npages * 4) == 1 && zonePages == 8
  {
    WholePages(npages * 4);
  }

  lemma FoundAtPageOne(s: State)
    requires s.zonePages == 8 && s.npages >= 3 && s.layout.runs == [PageList.Run(1, s.npages - 1)]
    ensures Found(s, 8192) == To(PAGE) && Given(8, 8192) == 8192
  {
    WholePages(8192);
    assert s.layout.runs[0] == PageList.Run(1, s.npages - 1);
  }

  /** In a new heap of 3 to 1024 pages the first block of 8192 bytes asked for begins at page 1, so
      it is aligned to its size only if the heap itself begins at an odd page. */
  method FirstPowerOfTwo(npages: nat) returns (h: Heap, p: Pointer)
    requires 3 <= npages <= 1024
    ensures h.Valid() && p == To(PAGE) && Blocks(h.Now()) == map[PAGE := 8192]
    ensures PowerOfTwo(8192) && forall base: nat :: (base * PAGE + PAGE) % 8192 == 0 <==> base % 2 == 1
  {
    h := new Heap(npages);
    Intact(h.Now());
    SmallHeap(npages, h.zonePages);
    FoundAtPageOne(h.Now());
    p := h.Malloc(8192);
    OddBase();
  }

  lemma PageAfter(base: nat)
    ensures (base * PAGE + PAGE) % 8192 == 0 <==> base % 2 == 1
  {
    assert base * PAGE + PAGE == (base + 1) * PAGE;
    PagesMod(base + 1, 2);
  }

  lemma OddBase()
    ensures PowerOfTwo(8192) && forall base: nat :: (base * PAGE + PAGE) % 8192 == 0 <==> base % 2 == 1
  {
    assert PowerOfTwo(8192);
    forall base: nat ensures (base * PAGE + PAGE) % 8192 == 0 <==> base % 2 == 1 {
      PageAfter(base);
    }
  }
}
