/** The page allocator under the slab heap (slab.c): a sorted list of runs of free pages. */
module PageList {
  /** count free pages from page start on. */
  datatype Run = Run(start: nat, count: nat)

  datatype Result = Nothing | Page(page: nat)

  function End(r: Run): nat {
    r.start + r.count
  }

  predicate Within(p: int, start: nat, count: nat) {
    start <= p < start + count
  }

  ghost function Extent(start: nat, count: nat): set<int> {
    set p | start <= p < start + count && Within(p, start, count)
  }

  /** The free pages. */
  ghost function Pages(runs: seq<Run>): set<int> {
    if runs == [] then {} else Extent(runs[0].start, runs[0].count) + Pages(runs[1..])
  }

  /** Runs in address order from lo on, none empty, with a used page between neighbours. */
  ghost predicate Canonical(runs: seq<Run>, lo: nat) {
    runs == [] || (lo <= runs[0].start && runs[0].count > 0 && Canonical(runs[1..], End(runs[0]) + 1))
  }

  lemma {:induction false} PagesAbove(runs: seq<Run>, lo: nat)
    requires Canonical(runs, lo)
    ensures forall p :: p in Pages(runs) ==> lo <= p
  {
    if runs != [] {
      PagesAbove(runs[1..], End(runs[0]) + 1);
    }
  }

  /** The list is the list of maximal runs of its page set: no other list has these pages. */
  lemma {:induction false} CanonicalIsUnique(a: seq<Run>, b: seq<Run>, lo: nat)
    requires Canonical(a, lo) && Canonical(b, lo) && Pages(a) == Pages(b)
    ensures a == b
  {
    if a != [] && b != [] {
      FirstRun(a, lo);
      FirstRun(b, lo);
      SameFirst(a, b, lo);
      CanonicalIsUnique(a[1..], b[1..], End(a[0]) + 1);
    } else if a != [] {
      FirstRun(a, lo);
    } else if b != [] {
      FirstRun(b, lo);
    }
  }

  /** The first run starts at the lowest free page and ends before the lowest used one behind it. */
  lemma FirstRun(runs: seq<Run>, lo: nat)
    requires Canonical(runs, lo) && runs != []
    ensures runs[0].start in Pages(runs) && forall p :: p in Pages(runs) ==> runs[0].start <= p
    ensures End(runs[0]) !in Pages(runs)
    ensures Pages(runs[1..]) == Pages(runs) - Extent(runs[0].start, runs[0].count)
  {
    PagesAbove(runs[1..], End(runs[0]) + 1);
  }

  lemma SameFirst(a: seq<Run>, b: seq<Run>, lo: nat)
    requires Canonical(a, lo) && Canonical(b, lo) && Pages(a) == Pages(b) && a != [] && b != []
    ensures a[0] == b[0]
  {
    FirstRun(a, lo);
    FirstRun(b, lo);
    assert a[0].start == b[0].start;
    if End(a[0]) < End(b[0]) {
      RunHas(b, End(a[0]));
    } else if End(b[0]) < End(a[0]) {
      RunHas(a, End(b[0]));
    }
  }

  lemma RunHas(runs: seq<Run>, p: nat)
    requires runs != [] && runs[0].start <= p < End(runs[0])
    ensures p in Pages(runs)
  {
  }

  lemma ExtentsApart(s: nat, m: nat, t: nat, n: nat)
    requires Extent(s, m) !! Extent(t, n) && m > 0 && n > 0
    ensures s + m <= t || t + n <= s
  {
    var p := if s < t then t else s;
    assert p in Extent(s, m) <==> p < s + m;
    assert p in Extent(t, n) <==> p < t + n;
  }

  lemma Single(r: Run, lo: nat)
    requires r.count > 0 && lo <= r.start
    ensures Canonical([r], lo) && Pages([r]) == Extent(r.start, r.count) && Next([r], lo) == End(r) + 1
  {
    assert [r][1..] == [];
  }

  lemma {:induction false} PagesConcat(xs: seq<Run>, ys: seq<Run>)
    ensures Pages(xs + ys) == Pages(xs) + Pages(ys)
  {
    if xs == [] {
      assert xs + ys == ys;
    } else {
      assert (xs + ys)[1..] == xs[1..] + ys && (xs + ys)[0] == xs[0];
      PagesConcat(xs[1..], ys);
    }
  }

  /** The first address a list may continue at behind xs. */
  ghost function Next(xs: seq<Run>, lo: nat): nat
    decreases |xs|
  {
    if xs == [] then lo else Next(xs[1..], End(xs[0]) + 1)
  }

  lemma {:induction false} CanonicalConcat(xs: seq<Run>, ys: seq<Run>, lo: nat)
    ensures Canonical(xs + ys, lo) <==> Canonical(xs, lo) && Canonical(ys, Next(xs, lo))
    decreases |xs|
  {
    if xs == [] {
      assert xs + ys == ys;
    } else {
      assert (xs + ys)[1..] == xs[1..] + ys && (xs + ys)[0] == xs[0];
      CanonicalConcat(xs[1..], ys, End(xs[0]) + 1);
    }
  }

  lemma {:induction false} NextSnoc(xs: seq<Run>, r: Run, lo: nat)
    ensures Next(xs + [r], lo) == End(r) + 1
    decreases |xs|
  {
    if xs == [] {
      assert xs + [r] == [r] && [r][1..] == [];
    } else {
      assert (xs + [r])[1..] == xs[1..] + [r] && (xs + [r])[0] == xs[0];
      NextSnoc(xs[1..], r, End(xs[0]) + 1);
    }
  }

  /** Splitting the list at position i. */
  lemma At(runs: seq<Run>, i: nat, lo: nat)
    requires Canonical(runs, lo) && i < |runs|
    ensures Canonical(runs[..i], lo) && Next(runs[..i], lo) <= runs[i].start && runs[i].count > 0
    ensures Canonical(runs[i + 1..], End(runs[i]) + 1)
    ensures Pages(runs) == Pages(runs[..i]) + Extent(runs[i].start, runs[i].count) + Pages(runs[i + 1..])
  {
    assert runs == runs[..i] + runs[i..];
    CanonicalConcat(runs[..i], runs[i..], lo);
    PagesConcat(runs[..i], runs[i..]);
    assert runs[i..][1..] == runs[i + 1..];
  }

  lemma {:induction false} PagesBelow(runs: seq<Run>, lo: nat)
    requires Canonical(runs, lo)
    ensures forall p :: p in Pages(runs) ==> p + 1 < Next(runs, lo)
    ensures lo <= Next(runs, lo)
    decreases |runs|
  {
    if runs != [] {
      PagesBelow(runs[1..], End(runs[0]) + 1);
    }
  }

  /** Putting a list together from parts. */
  lemma Assemble(front: seq<Run>, mid: seq<Run>, back: seq<Run>, lo: nat)
    requires Canonical(front, lo) && Canonical(mid, Next(front, lo)) && Canonical(back, Next(mid, Next(front, lo)))
    ensures Canonical(front + mid + back, lo)
    ensures Pages(front + mid + back) == Pages(front) + Pages(mid) + Pages(back)
  {
    CanonicalConcat(front, mid, lo);
    CanonicalConcat(front + mid, back, lo);
    NextConcat(front, mid, lo);
    PagesConcat(front, mid);
    PagesConcat(front + mid, back);
  }

  lemma {:induction false} NextConcat(xs: seq<Run>, ys: seq<Run>, lo: nat)
    ensures Next(xs + ys, lo) == Next(ys, Next(xs, lo))
    decreases |xs|
  {
    if xs == [] {
      assert xs + ys == ys;
    } else {
      assert (xs + ys)[1..] == xs[1..] + ys && (xs + ys)[0] == xs[0];
      NextConcat(xs[1..], ys, End(xs[0]) + 1);
    }
  }

  lemma {:induction false} CanonicalFrom(runs: seq<Run>, lo: nat, lo': nat)
    requires Canonical(runs, lo) && (runs == [] || lo' <= runs[0].start)
    ensures Canonical(runs, lo')
  {
  }

  /** The first run of at least n pages, or the number of runs. */
  function FirstLong(runs: seq<Run>, n: nat): (i: nat)
    ensures i <= |runs|
    ensures i < |runs| ==> runs[i].count >= n
    ensures forall j :: 0 <= j < i ==> runs[j].count < n
  {
    if runs == [] || runs[0].count >= n then 0
    else
      var k := FirstLong(runs[1..], n);
      assert forall j :: 0 < j <= k && j < |runs| ==> runs[j] == runs[1..][j - 1];
      k + 1
  }

  /** The list of free runs. */
  class Allocator {
    var runs: seq<Run>

    ghost predicate Valid()
      reads this
    {
      Canonical(runs, 0)
    }

    ghost function FreePages(): set<int>
      reads this
    {
      Pages(runs)
    }

    /** rt_page_init. */
    constructor (addr: nat, npages: nat)
      requires npages != 0
      ensures Valid() && runs == [Run(addr, npages)] && FreePages() == Extent(addr, npages)
    {
      runs := [];
      new;
      Free(addr, npages);
      CanonicalIsUnique(runs, [Run(addr, npages)], 0);
    }

    /** rt_page_alloc: the first run long enough gives its first pages. */
    method Alloc(npages: nat) returns (b: Result)
      requires Valid()
      modifies this
      ensures Valid()
      ensures var i := FirstLong(old(runs), npages);
              b == if npages == 0 || i == |old(runs)| then Nothing else Page(old(runs)[i].start)
      ensures b == Nothing ==> runs == old(runs)
      ensures b.Page? ==>
              Extent(b.page, npages) <= old(FreePages()) && FreePages() == old(FreePages()) - Extent(b.page, npages)
    {
      if npages == 0 {
        return Nothing;
      }
      var i := 0;
      while i < |runs|
        invariant i <= |runs| && runs == old(runs)
        invariant forall j :: 0 <= j < i ==> runs[j].count < npages
      {
        var r := runs[i];
        if r.count >= npages {
          TakeFrom(runs, i, npages);
          runs := runs[..i] + (if r.count > npages then [Run(r.start + npages, r.count - npages)]
              else []) + runs[i + 1..];
          return Page(r.start);
        }
        i := i + 1;
      }
      b := Nothing;
    }

    /** rt_page_free: the pages join the run before them, the run behind them, or both. */
    method Free(addr: nat, npages: nat)
      requires Valid() && npages != 0 && Extent(addr, npages) !! FreePages()
      modifies this
      ensures Valid() && FreePages() == old(FreePages()) + Extent(addr, npages)
    {
      var i := 0;
      while i < |runs|
        invariant i <= |runs| && runs == old(runs)
        invariant Next(runs[..i], 0) <= addr
      {
        var b := runs[i];
        At(runs, i, 0);
        if End(b) == addr {
          Extend(i, npages);
          return;
        }
        if b.start == addr + npages {
          JoinBehind(runs, i, addr, npages);
          runs := runs[..i] + [Run(addr, b.count + npages)] + runs[i + 1..];
          return;
        }
        if b.start > addr + npages {
          break;
        }
        StepOver(runs, i, addr, npages);
        i := i + 1;
      }
      JoinAlone(runs, i, addr, npages);
      runs := runs[..i] + [Run(addr, npages)] + runs[i..];
    }

    /** Pages freed right behind run i join it, and the run behind them if they touch it. */
    method Extend(i: nat, npages: nat)
      requires Valid() && i < |runs| && npages != 0 && Extent(End(runs[i]), npages) !! FreePages()
      modifies this
      ensures Valid() && FreePages() == old(FreePages()) + Extent(End(old(runs)[i]), npages)
    {
      JoinBefore(runs, i, End(runs[i]), npages);
      var r := Run(runs[i].start, runs[i].count + npages);
      if i + 1 < |runs| && End(r) == runs[i + 1].start {
        runs := runs[..i] + [Run(r.start, r.count + runs[i + 1].count)] + runs[i + 2..];
      } else {
        runs := runs[..i] + [r] + runs[i + 1..];
      }
    }
  }

  // What the branches do

  lemma TakeFrom(runs: seq<Run>, i: nat, npages: nat)
    requires Canonical(runs, 0) && i < |runs| && 0 < npages <= runs[i].count
    ensures var r := runs[i];
            var after := runs[..i] + (if r.count > npages then [Run(r.start + npages, r.count - npages)]
                else []) + runs[i + 1..];
            && Canonical(after, 0) && Extent(r.start, npages) <= Pages(runs)
            && Pages(after) == Pages(runs) - Extent(r.start, npages)
  {
    if runs[i].count > npages {
      TakePart(runs, i, npages);
    } else {
      TakeWhole(runs, i);
    }
  }

  lemma ExtentSplit(start: nat, m: nat, n: nat)
    ensures Extent(start, m + n) == Extent(start, m) + Extent(start + m, n)
    ensures Extent(start, m) !! Extent(start + m, n)
  {
    var all, front, back := Extent(start, m + n), Extent(start, m), Extent(start + m, n);
    forall p ensures p in all <==> p in front || p in back {
      assert Within(p, start, m + n) == (Within(p, start, m) || Within(p, start + m, n));
    }
    forall p | p in front ensures p !in back {
      assert Within(p, start, m);
    }
  }

  lemma TakePart(runs: seq<Run>, i: nat, npages: nat)
    requires Canonical(runs, 0) && i < |runs| && 0 < npages < runs[i].count
    ensures var r := runs[i];
            var after := runs[..i] + [Run(r.start + npages, r.count - npages)] + runs[i + 1..];
            && Canonical(after, 0) && Extent(r.start, npages) <= Pages(runs)
            && Pages(after) == Pages(runs) - Extent(r.start, npages)
  {
    At(runs, i, 0);
    var r := runs[i];
    var rest := Run(r.start + npages, r.count - npages);
    Single(rest, Next(runs[..i], 0));
    ExtentSplit(r.start, npages, rest.count);
    assert Extent(r.start, r.count) == Extent(r.start, npages) + Extent(rest.start, rest.count);
    Assemble(runs[..i], [rest], runs[i + 1..], 0);
    ApartFromRest(runs, i, npages);
    CutOut(Pages(runs[..i]), Extent(r.start, npages), Extent(rest.start, rest.count), Pages(runs[i + 1..]));
  }

  /** The front of a run meets no other run. */
  lemma ApartFromRest(runs: seq<Run>, i: nat, npages: nat)
    requires Canonical(runs, 0) && i < |runs| && npages <= runs[i].count
    ensures Extent(runs[i].start, npages) !! Pages(runs[..i]) && Extent(runs[i].start, npages) !! Pages(runs[i + 1..])
  {
    At(runs, i, 0);
    PagesBelow(runs[..i], 0);
    PagesAbove(runs[i + 1..], End(runs[i]) + 1);
  }

  lemma CutOut(front: set<int>, gone: set<int>, kept: set<int>, back: set<int>)
    requires gone !! front && gone !! kept && gone !! back
    ensures front + kept + back == front + (gone + kept) + back - gone
    ensures gone <= front + (gone + kept) + back
  {
  }

  lemma TakeWhole(runs: seq<Run>, i: nat)
    requires Canonical(runs, 0) && i < |runs|
    ensures var after := runs[..i] + [] + runs[i + 1..]; var e := Extent(runs[i].start, runs[i].count);
            Canonical(after, 0) && e <= Pages(runs) && Pages(after) == Pages(runs) - e
  {
    At(runs, i, 0);
    PagesBelow(runs[..i], 0);
    PagesAbove(runs[i + 1..], End(runs[i]) + 1);
    CanonicalFrom(runs[i + 1..], End(runs[i]) + 1, Next(runs[..i], 0));
    Assemble(runs[..i], [], runs[i + 1..], 0);
  }

  /** A run that neither touches nor follows the freed pages lies before them. */
  lemma StepOver(runs: seq<Run>, i: nat, addr: nat, npages: nat)
    requires Canonical(runs, 0) && i < |runs| && npages > 0 && Extent(addr, npages) !! Pages(runs)
    requires End(runs[i]) != addr && runs[i].start <= addr + npages && runs[i].start != addr + npages
    ensures Next(runs[..i + 1], 0) <= addr
  {
    At(runs, i, 0);
    assert runs[..i + 1] == runs[..i] + [runs[i]];
    NextSnoc(runs[..i], runs[i], 0);
    ExtentsApart(addr, npages, runs[i].start, runs[i].count);
  }

  /** The pages behind the freed ones start no earlier than where they end. */
  lemma BehindStart(runs: seq<Run>, i: nat, addr: nat, npages: nat)
    requires Canonical(runs, 0) && i < |runs| && npages > 0 && Extent(addr, npages) !! Pages(runs)
             && addr < runs[i].start
    ensures addr + npages <= runs[i].start
  {
    At(runs, i, 0);
    ExtentsApart(addr, npages, runs[i].start, runs[i].count);
  }

  lemma JoinBefore(runs: seq<Run>, i: nat, addr: nat, npages: nat)
    requires Canonical(runs, 0) && i < |runs| && npages > 0 && Extent(addr, npages) !! Pages(runs)
             && End(runs[i]) == addr
    ensures var r := Run(runs[i].start, runs[i].count + npages);
            var after := if i + 1 < |runs| && End(r) == runs[i + 1].start
                         then runs[..i] + [Run(r.start, r.count + runs[i + 1].count)] + runs[i + 2..]
                         else runs[..i] + [r] + runs[i + 1..];
            Canonical(after, 0) && Pages(after) == Pages(runs) + Extent(addr, npages)
  {
    if i + 1 < |runs| && addr + npages == runs[i + 1].start {
      JoinBoth(runs, i, addr, npages);
    } else {
      At(runs, i, 0);
      var r := Run(runs[i].start, runs[i].count + npages);
      Single(r, Next(runs[..i], 0));
      ExtentSplit(r.start, runs[i].count, npages);
      if i + 1 < |runs| {
        BehindStart(runs, i + 1, addr, npages);
        assert runs[i + 1..][0] == runs[i + 1];
      }
      CanonicalFrom(runs[i + 1..], End(runs[i]) + 1, End(r) + 1);
      Assemble(runs[..i], [r], runs[i + 1..], 0);
    }
  }

  lemma JoinBoth(runs: seq<Run>, i: nat, addr: nat, npages: nat)
    requires Canonical(runs, 0) && i + 1 < |runs| && npages > 0 && End(runs[i]) == addr
             && addr + npages == runs[i + 1].start
    ensures var after := runs[..i] + [Run(runs[i].start, runs[i].count + npages + runs[i + 1].count)] + runs[i + 2..];
            Canonical(after, 0) && Pages(after) == Pages(runs) + Extent(addr, npages)
  {
    At(runs, i, 0);
    FrontOfBack(runs, i);
    var w := Run(runs[i].start, runs[i].count + npages + runs[i + 1].count);
    var a, n, b := Extent(w.start, runs[i].count), Extent(addr, npages), Extent(runs[i + 1].start, runs[i + 1].count);
    Single(w, Next(runs[..i], 0));
    ExtentSplit(w.start, runs[i].count + npages, runs[i + 1].count);
    ExtentSplit(w.start, runs[i].count, npages);
    assert Extent(w.start, w.count) == a + n + b;
    Assemble(runs[..i], [w], runs[i + 2..], 0);
    PutIn(Pages(runs[..i]), a, n, b, Pages(runs[i + 2..]));
  }

  lemma FrontOfBack(runs: seq<Run>, i: nat)
    requires Canonical(runs, 0) && i + 1 < |runs|
    ensures Canonical(runs[i + 2..], End(runs[i + 1]) + 1)
    ensures Pages(runs[i + 1..]) == Extent(runs[i + 1].start, runs[i + 1].count) + Pages(runs[i + 2..])
  {
    At(runs, i, 0);
    var back := runs[i + 1..];
    assert back[0] == runs[i + 1] && back[1..] == runs[i + 2..];
  }

  lemma PutIn(front: set<int>, a: set<int>, n: set<int>, b: set<int>, back: set<int>)
    ensures front + (a + n + b) + back == front + a + (b + back) + n
  {
  }

  lemma JoinBehind(runs: seq<Run>, i: nat, addr: nat, npages: nat)
    requires Canonical(runs, 0) && i < |runs| && npages > 0 && runs[i].start == addr + npages
    requires Next(runs[..i], 0) <= addr
    ensures var after := runs[..i] + [Run(addr, runs[i].count + npages)] + runs[i + 1..];
            Canonical(after, 0) && Pages(after) == Pages(runs) + Extent(addr, npages)
  {
    At(runs, i, 0);
    var r := Run(addr, runs[i].count + npages);
    Single(r, Next(runs[..i], 0));
    ExtentSplit(addr, npages, runs[i].count);
    Assemble(runs[..i], [r], runs[i + 1..], 0);
  }

  lemma JoinAlone(runs: seq<Run>, i: nat, addr: nat, npages: nat)
    requires Canonical(runs, 0) && i <= |runs| && npages > 0 && Next(runs[..i], 0) <= addr
    requires i < |runs| ==> runs[i].start > addr + npages
    ensures var after := runs[..i] + [Run(addr, npages)] + runs[i..];
            Canonical(after, 0) && Pages(after) == Pages(runs) + Extent(addr, npages)
  {
    assert runs == runs[..i] + runs[i..];
    CanonicalConcat(runs[..i], runs[i..], 0);
    PagesConcat(runs[..i], runs[i..]);
    var r := Run(addr, npages);
    Single(r, Next(runs[..i], 0));
    CanonicalFrom(runs[i..], Next(runs[..i], 0), End(r) + 1);
    Assemble(runs[..i], [r], runs[i..], 0);
  }

  // Whole runs

  /** Freeing what was just allocated gives back the same list. */
  method AllocFree(a: Allocator, npages: nat) returns (b: Result)
    requires a.Valid()
    modifies a
    ensures a.Valid() && a.runs == old(a.runs)
    ensures b == Nothing <==> npages == 0 || forall i :: 0 <= i < |old(a.runs)| ==> old(a.runs)[i].count < npages
  {
    b := a.Alloc(npages);
    if b.Page? {
      a.Free(b.page, npages);
      CanonicalIsUnique(a.runs, old(a.runs), 0);
    }
  }

  /** Whatever was allocated and freed, two allocators with the same free pages have the same list. */
  lemma SameFreeSameList(a: Allocator, b: Allocator)
    requires a.Valid() && b.Valid() && a.FreePages() == b.FreePages()
    ensures a.runs == b.runs
  {
    CanonicalIsUnique(a.runs, b.runs, 0);
  }
}
