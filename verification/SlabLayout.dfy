/** Who owns which page of the slab heap (slab.c).

    What is wrong with a layout is kept as sets of regions and pages, empty when it is sound. */
module SlabLayout {
  import opened PageList

  const FREE: int := -1

  /** What a run of pages is used for. */
  datatype Kind = InUse | Spare | Large | Table

  datatype Region = Region(kind: Kind, count: nat)

  /** The free list, the regions in use by first page, and for every page the region it
      belongs to. */
  datatype Layout = Layout(runs: seq<Run>, regions: map<nat, Region>, owner: map<int, int>)

  ghost function Unowned(owner: map<int, int>): set<int> {
    set p | p in owner && owner[p] == FREE
  }

  ghost predicate RegionOk(l: Layout, start: nat)
    requires start in l.regions
  {
    var n := l.regions[start].count;
    n > 0 && forall p :: Within(p, start, n) ==> p in l.owner && l.owner[p] == start
  }

  ghost predicate OwnerOk(l: Layout, p: int)
    requires p in l.owner
  {
    l.owner[p] == FREE ||
    (l.owner[p] >= 0 && var o: nat := l.owner[p]; o in l.regions && Within(p, o, l.regions[o].count))
  }

  ghost function BadRegions(l: Layout): set<nat> {
    set r | r in l.regions && !RegionOk(l, r)
  }

  ghost function BadOwners(l: Layout): set<int> {
    set p | p in l.owner && !OwnerOk(l, p)
  }

  /** Every page is in exactly one place: on the free list or in one region. */
  ghost predicate Partitioned(l: Layout, npages: nat) {
    && Canonical(l.runs, 0) && Pages(l.runs) == Unowned(l.owner) && l.owner.Keys == Extent(0, npages)
    && BadRegions(l) == {} && BadOwners(l) == {}
  }

  lemma RegionOf(l: Layout, start: nat)
    requires BadRegions(l) == {} && start in l.regions
    ensures RegionOk(l, start) && l.regions[start].count > 0
    ensures start in l.owner && l.owner[start] == start
  {
    assert start !in BadRegions(l);
    assert Within(start, start, l.regions[start].count);
  }

  lemma PageIn(l: Layout, start: nat, p: int)
    requires BadRegions(l) == {} && start in l.regions && Within(p, start, l.regions[start].count)
    ensures p in l.owner && l.owner[p] == start
  {
    assert start !in BadRegions(l);
  }

  lemma OwnerOf(l: Layout, p: int)
    requires BadOwners(l) == {} && p in l.owner
    ensures OwnerOk(l, p)
  {
    assert p !in BadOwners(l);
  }

  /** In the words of the page descriptors: every page is free or in exactly one region. */
  lemma EachPageOnce(l: Layout, npages: nat, p: nat)
    requires Partitioned(l, npages) && p < npages
    ensures p in Pages(l.runs) || exists r :: r in l.regions && Within(p, r, l.regions[r].count)
    ensures forall r :: r in l.regions && Within(p, r, l.regions[r].count) ==> p !in Pages(l.runs)
    ensures forall q, r :: (&& q in l.regions && Within(p, q, l.regions[q].count)
                            && r in l.regions && Within(p, r, l.regions[r].count)) ==> q == r
  {
    assert Within(p, 0, npages) && p in l.owner;
    OwnerOf(l, p);
    if l.owner[p] != FREE {
      var r: nat := l.owner[p];
      assert r in l.regions && Within(p, r, l.regions[r].count);
    }
    forall r | r in l.regions && Within(p, r, l.regions[r].count) ensures l.owner[p] == r {
      PageIn(l, r, p);
    }
  }

  // Changing hands

  ghost function Assigned(owner: map<int, int>, start: nat, n: nat, o: int): map<int, int> {
    map p | p in owner :: if Within(p, start, n) then o else owner[p]
  }

  /** Free pages become a region. */
  ghost function Granted(l: Layout, start: nat, n: nat, kind: Kind, runs: seq<Run>): Layout {
    Layout(runs, l.regions[start := Region(kind, n)], Assigned(l.owner, start, n, start))
  }

  lemma GrantKeeps(l: Layout, npages: nat, start: nat, n: nat, kind: Kind, runs: seq<Run>)
    requires Partitioned(l, npages) && n > 0 && Extent(start, n) <= Pages(l.runs)
    requires Canonical(runs, 0) && Pages(runs) == Pages(l.runs) - Extent(start, n)
    ensures start !in l.regions && Partitioned(Granted(l, start, n, kind, runs), npages)
  {
    assert Within(start, start, n) && start in Pages(l.runs);
    if start in l.regions {
      RegionOf(l, start);
    }
    var l' := Granted(l, start, n, kind, runs);
    forall p | Within(p, start, n) ensures p in l.owner && l.owner[p] == FREE {
      assert p in Extent(start, n);
    }
    forall r | r in l'.regions ensures RegionOk(l', r) {
      if r != start {
        RegionOf(l, r);
        forall p | Within(p, r, l.regions[r].count) ensures p in l'.owner && l'.owner[p] == r {
          PageIn(l, r, p);
        }
      }
    }
    forall p | p in l'.owner ensures OwnerOk(l', p) {
      OwnerOf(l, p);
    }
    forall p | p in l'.owner ensures p in Unowned(l'.owner) <==> p in Pages(runs) {
      assert p in Extent(start, n) <==> Within(p, start, n);
    }
  }

  /** A region becomes free pages. */
  ghost function Returned(l: Layout, start: nat, runs: seq<Run>): Layout
    requires start in l.regions
  {
    Layout(runs, l.regions - {start}, Assigned(l.owner, start, l.regions[start].count, FREE))
  }

  lemma RegionIsUsed(l: Layout, npages: nat, start: nat)
    requires Partitioned(l, npages) && start in l.regions
    ensures Extent(start, l.regions[start].count) !! Pages(l.runs)
  {
    forall p | p in Extent(start, l.regions[start].count) ensures p !in Pages(l.runs) {
      PageIn(l, start, p);
    }
  }

  lemma ReturnKeeps(l: Layout, npages: nat, start: nat, runs: seq<Run>)
    requires Partitioned(l, npages) && start in l.regions && Canonical(runs, 0)
    requires Pages(runs) == Pages(l.runs) + Extent(start, l.regions[start].count)
    ensures Partitioned(Returned(l, start, runs), npages)
  {
    var n, l' := l.regions[start].count, Returned(l, start, runs);
    forall p | Within(p, start, n) ensures p in l.owner && l.owner[p] == start {
      PageIn(l, start, p);
    }
    forall r | r in l'.regions ensures RegionOk(l', r) {
      RegionOf(l, r);
      forall p | Within(p, r, l.regions[r].count) ensures p in l'.owner && l'.owner[p] == r {
        PageIn(l, r, p);
      }
    }
    forall p | p in l'.owner ensures OwnerOk(l', p) {
      OwnerOf(l, p);
    }
    forall p | p in l'.owner ensures p in Unowned(l'.owner) <==> p in Pages(runs) {
      assert p in Extent(start, n) <==> Within(p, start, n);
    }
  }

  /** A region changes its use. */
  lemma RekindKeeps(l: Layout, npages: nat, start: nat, kind: Kind)
    requires Partitioned(l, npages) && start in l.regions
    ensures Partitioned(l.(regions := l.regions[start := l.regions[start].(kind := kind)]), npages)
  {
    var l' := l.(regions := l.regions[start := l.regions[start].(kind := kind)]);
    forall r | r in l'.regions ensures RegionOk(l', r) {
      RegionOf(l, r);
    }
    forall p | p in l'.owner ensures OwnerOk(l', p) {
      OwnerOf(l, p);
    }
  }
}
