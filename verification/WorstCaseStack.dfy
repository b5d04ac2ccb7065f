/** The worst-case-stack analyser (tools/WCS.py): call resolution and the memoised
    depth-first search over the resulting call graph.

    What the search has recorded is judged by the set of functions recorded wrongly, which is
    empty throughout, so that each step is proved for one function at a time. */
module WorstCaseStack {
  import opened Sequences

  type Fxn = nat

  /** What the .rtl, .su and manual files say of one function. */
  datatype Decl = Decl(tu: string, calls: set<string>, hasPtrCall: bool, localStack: nat, manual: bool)

  datatype Wcs = Unbounded | Bytes(n: nat)

  /** One function of the resolved graph. */
  datatype Node = Node(hasPtrCall: bool, localStack: nat, callees: set<Fxn>, missing: set<string>)

  type Graph = map<Fxn, Node>

  // What the analysis is supposed to find

  /** p is a chain of resolved calls. */
  ghost predicate CallChain(g: Graph, p: seq<Fxn>) {
    && |p| > 0 && p[0] in g
    && (|p| > 1 ==> p[1] in g[p[0]].callees && CallChain(g, p[1..]))
  }

  function Last(p: seq<Fxn>): Fxn
    requires |p| > 0
  {
    p[|p| - 1]
  }

  /** The chain ends in a call through a pointer or closes a cycle. */
  ghost predicate Diverges(g: Graph, p: seq<Fxn>)
    requires |p| > 0
  {
    (Last(p) in g && g[Last(p)].hasPtrCall) || Last(p) in p[..|p| - 1]
  }

  ghost predicate IsUnbounded(g: Graph, f: Fxn) {
    exists p :: CallChain(g, p) && p[0] == f && Diverges(g, p)
  }

  /** The stack a chain of calls needs. */
  ghost function StackOf(g: Graph, p: seq<Fxn>): nat {
    if p == [] then 0 else (if p[0] in g then g[p[0]].localStack else 0) + StackOf(g, p[1..])
  }

  /** n is the largest stack need of any chain from f. */
  ghost predicate IsWorst(g: Graph, f: Fxn, n: nat) {
    && (exists p :: CallChain(g, p) && p[0] == f && StackOf(g, p) == n)
    && (forall p :: CallChain(g, p) && p[0] == f ==> StackOf(g, p) <= n)
  }

  ghost predicate Correct(g: Graph, f: Fxn, w: Wcs) {
    match w
    case Unbounded => IsUnbounded(g, f)
    case Bytes(n) => !IsUnbounded(g, f) && IsWorst(g, f, n)
  }

  /** Some function reachable from f leaves a call to u unresolved. */
  ghost predicate MissingBelow(g: Graph, f: Fxn, u: string) {
    exists p :: CallChain(g, p) && p[0] == f && Last(p) in g && u in g[Last(p)].missing
  }

  // Chains

  lemma ChainCons(g: Graph, f: Fxn, p: seq<Fxn>)
    requires CallChain(g, p) && f in g && p[0] in g[f].callees
    ensures CallChain(g, [f] + p) && Last([f] + p) == Last(p)
    ensures StackOf(g, [f] + p) == g[f].localStack + StackOf(g, p)
  {
    assert ([f] + p)[1..] == p;
  }

  lemma {:induction false} ChainSnoc(g: Graph, p: seq<Fxn>, f: Fxn)
    requires CallChain(g, p) && f in g && Last(p) in g && f in g[Last(p)].callees
    ensures CallChain(g, p + [f])
  {
    if |p| > 1 {
      ChainSnoc(g, p[1..], f);
      assert (p + [f])[1..] == p[1..] + [f];
    } else {
      assert (p + [f])[1..] == [f];
      assert CallChain(g, [f]);
    }
  }

  lemma {:induction false} ChainFrom(g: Graph, p: seq<Fxn>, i: nat)
    requires CallChain(g, p) && i < |p|
    ensures CallChain(g, p[i..]) && Last(p[i..]) == Last(p)
  {
    if i > 0 {
      ChainFrom(g, p[1..], i - 1);
      assert p[1..][i - 1..] == p[i..];
    } else {
      assert p[0..] == p;
    }
  }

  lemma {:induction false} ChainEnd(g: Graph, p: seq<Fxn>)
    requires CallChain(g, p)
    ensures Last(p) in g
  {
    if |p| > 1 {
      ChainEnd(g, p[1..]);
    }
  }

  // Unboundedness, one call at a time

  lemma PointerCallUnbounded(g: Graph, f: Fxn)
    requires f in g && g[f].hasPtrCall
    ensures IsUnbounded(g, f)
  {
    assert CallChain(g, [f]) && Diverges(g, [f]);
  }

  lemma CalleeUnbounded(g: Graph, f: Fxn, c: Fxn)
    requires f in g && c in g[f].callees && IsUnbounded(g, c)
    ensures IsUnbounded(g, f)
  {
    var p :| CallChain(g, p) && p[0] == c && Diverges(g, p);
    ChainCons(g, f, p);
    var q := [f] + p;
    if Last(p) in p[..|p| - 1] {
      assert q[..|q| - 1] == [f] + p[..|p| - 1];
    }
    assert Diverges(g, q) && q[0] == f;
  }

  /** A function met again below itself lies on a cycle. */
  lemma CycleUnbounded(g: Graph, p: seq<Fxn>, i: nat)
    requires CallChain(g, p) && i < |p| - 1 && p[i] == Last(p)
    ensures IsUnbounded(g, Last(p))
  {
    ChainFrom(g, p, i);
    var q := p[i..];
    assert q[0] == Last(q) && q[0] in q[..|q| - 1];
    assert Diverges(g, q);
  }

  /** Nothing else makes a function unbounded: if it calls through no pointer
      itself, then one of its callees is unbounded too. */
  lemma UnboundedCallee(g: Graph, f: Fxn) returns (c: Fxn)
    requires f in g && !g[f].hasPtrCall && IsUnbounded(g, f)
    ensures c in g[f].callees && IsUnbounded(g, c)
  {
    var p :| CallChain(g, p) && p[0] == f && Diverges(g, p);
    ChainEnd(g, p);
    var q := p[1..];
    c := p[1];
    assert CallChain(g, q) && Last(q) == Last(p);
    if !g[Last(p)].hasPtrCall {
      var i :| 0 <= i < |p| - 1 && p[i] == Last(p);
      if i == 0 {
        ChainSnoc(g, q, c);
        var r := q + [c];
        assert r[0] == Last(r) && r[0] in r[..|r| - 1];
        assert Diverges(g, r);
      } else {
        assert q[i - 1] == Last(q) && q[i - 1] in q[..|q| - 1];
        assert Diverges(g, q);
      }
    } else {
      assert Diverges(g, q);
    }
  }

  // The longest chain, one call at a time

  /** m is the largest worst case of the callees seen, or 0 if there is none. */
  ghost predicate IsCalleeMax(g: Graph, seen: set<Fxn>, m: nat) {
    && (m == 0 || exists c :: c in seen && IsWorst(g, c, m))
    && (forall c :: c in seen ==> exists n: nat :: n <= m && IsWorst(g, c, n))
  }

  lemma WorstOfCallees(g: Graph, f: Fxn, m: nat)
    requires f in g && IsCalleeMax(g, g[f].callees, m)
    ensures IsWorst(g, f, g[f].localStack + m)
  {
    forall p | CallChain(g, p) && p[0] == f ensures StackOf(g, p) <= g[f].localStack + m {
      if |p| > 1 {
        var n: nat :| n <= m && IsWorst(g, p[1], n);
        assert StackOf(g, p[1..]) <= n;
      }
    }
    if m == 0 {
      assert CallChain(g, [f]) && StackOf(g, [f][1..]) == 0;
      assert StackOf(g, [f]) == g[f].localStack;
    } else {
      var c :| c in g[f].callees && IsWorst(g, c, m);
      var p :| CallChain(g, p) && p[0] == c && StackOf(g, p) == m;
      ChainCons(g, f, p);
    }
  }

  // Unresolved calls, one call at a time

  lemma OwnMissing(g: Graph, f: Fxn, u: string)
    requires f in g && u in g[f].missing
    ensures MissingBelow(g, f, u)
  {
    assert CallChain(g, [f]) && Last([f]) == f;
  }

  lemma CalleeMissing(g: Graph, f: Fxn, c: Fxn, u: string)
    requires f in g && c in g[f].callees && MissingBelow(g, c, u)
    ensures MissingBelow(g, f, u)
  {
    var p :| CallChain(g, p) && p[0] == c && Last(p) in g && u in g[Last(p)].missing;
    ChainCons(g, f, p);
  }

  lemma MissingFrom(g: Graph, f: Fxn, u: string)
    requires f in g && MissingBelow(g, f, u)
    ensures u in g[f].missing || exists c :: c in g[f].callees && MissingBelow(g, c, u)
  {
    var p :| CallChain(g, p) && p[0] == f && Last(p) in g && u in g[Last(p)].missing;
    if |p| > 1 {
      assert CallChain(g, p[1..]) && Last(p[1..]) == Last(p);
      assert MissingBelow(g, p[1], u);
    }
  }

  // The state of the search

  type Found = map<Fxn, Wcs>
  type Missing = map<Fxn, set<string>>

  /** What is recorded of f is true: its worst case; unresolved calls below it, its own
      among them, and all of them once f is found bounded. */
  ghost predicate RightAt(g: Graph, wcs: Found, unresolved: Missing, f: Fxn) {
    && (f in wcs ==> f in g && Correct(g, f, wcs[f]))
    && (f in g <==> f in unresolved)
    && (f in g ==> g[f].missing <= unresolved[f] && forall u :: u in unresolved[f] ==> MissingBelow(g, f, u))
    && (f in g && f in wcs && wcs[f].Bytes? ==> forall u :: MissingBelow(g, f, u) ==> u in unresolved[f])
  }

  ghost function Mistakes(g: Graph, wcs: Found, unresolved: Missing): set<Fxn> {
    set f | f in g.Keys + wcs.Keys + unresolved.Keys && !RightAt(g, wcs, unresolved, f)
  }

  lemma NoMistake(g: Graph, wcs: Found, unresolved: Missing, f: Fxn)
    requires Mistakes(g, wcs, unresolved) == {}
    ensures RightAt(g, wcs, unresolved, f)
  {
    assert f !in Mistakes(g, wcs, unresolved);
  }

  /** From one pair of results to a later one f keeps a finished result, drops no unresolved
      call, and is not found bounded while it is open. */
  ghost predicate KeptAt(wcs: Found, wcs': Found, unresolved: Missing, unresolved': Missing, open: set<Fxn>, f: Fxn) {
    && (f in wcs ==> f in wcs' && wcs'[f] == wcs[f])
    && (f in unresolved ==> f in unresolved' && unresolved[f] <= unresolved'[f])
    && (f in wcs && wcs[f].Bytes? && f in unresolved ==> unresolved'[f] == unresolved[f])
    && (f in wcs' && f !in wcs && f in open ==> wcs'[f] == Unbounded)
  }

  ghost function Spoiled(wcs: Found, wcs': Found, unresolved: Missing, unresolved': Missing, open: set<Fxn>): set<Fxn> {
    set f | f in wcs.Keys + wcs'.Keys + unresolved.Keys && !KeptAt(wcs, wcs', unresolved, unresolved', open, f)
  }

  lemma NotSpoiled(wcs: Found, wcs': Found, unresolved: Missing, unresolved': Missing, open: set<Fxn>, f: Fxn)
    requires Spoiled(wcs, wcs', unresolved, unresolved', open) == {}
    ensures KeptAt(wcs, wcs', unresolved, unresolved', open, f)
  {
    assert f !in Spoiled(wcs, wcs', unresolved, unresolved', open);
  }

  lemma SpoiledNot(wcs: Found, unresolved: Missing, open: set<Fxn>)
    ensures Spoiled(wcs, wcs, unresolved, unresolved, open) == {}
  {
  }

  lemma SpoiledTwice(a: Found, b: Found, c: Found, x: Missing, y: Missing, z: Missing, open: set<Fxn>, open': set<Fxn>)
    requires Spoiled(a, b, x, y, open) == {} && Spoiled(b, c, y, z, open') == {} && open' <= open
    ensures Spoiled(a, c, x, z, open') == {}
  {
    forall f ensures KeptAt(a, c, x, z, open', f) {
      NotSpoiled(a, b, x, y, open, f);
      NotSpoiled(b, c, y, z, open', f);
    }
  }

  /** The callees among rc[..k] not found bounded by callMax, or whose unresolved calls
      were not passed on to f. */
  ghost function Unscanned(wcs: Found, unresolved: Missing, f: Fxn, rc: seq<Fxn>, k: nat, callMax: nat): set<nat>
    requires k <= |rc|
  {
    set j: nat | j < k && !(&& rc[j] in wcs && wcs[rc[j]].Bytes? && wcs[rc[j]].n <= callMax
                       && f in unresolved && rc[j] in unresolved && unresolved[rc[j]] <= unresolved[f])
  }

  ghost function Depths(wcs: Found, rc: seq<Fxn>): set<nat> {
    set c | c in rc && c in wcs && wcs[c].Bytes? :: wcs[c].n
  }

  /** One more callee scanned: f records what the callee misses. */
  lemma ScanStep(g: Graph, wcs0: Found, wcs: Found, unresolved0: Missing, unresolved: Missing,
                 f: Fxn, rc: seq<Fxn>, k: nat, callMax: nat, open: set<Fxn>)
    requires k < |rc| && Unscanned(wcs0, unresolved0, f, rc, k, callMax) == {}
    requires callMax == 0 || callMax in Depths(wcs0, rc[..k])
    requires Spoiled(wcs0, wcs, unresolved0, unresolved, open) == {}
    requires Mistakes(g, wcs, unresolved) == {} && f in g && rc[k] in g[f].callees
    requires (f in wcs0 ==> wcs0[f] == Unbounded) && f in open && rc[k] in wcs && wcs[rc[k]].Bytes?
    ensures f in unresolved && rc[k] in unresolved
    ensures var unresolved' := unresolved[f := unresolved[f] + unresolved[rc[k]]];
            var n := wcs[rc[k]].n;
            var most := if n > callMax then n else callMax;
            && Mistakes(g, wcs, unresolved') == {}
            && Spoiled(wcs0, wcs, unresolved0, unresolved', open) == {}
            && Unscanned(wcs, unresolved', f, rc, k + 1, most) == {}
            && (most == 0 || most in Depths(wcs, rc[..k + 1]))
  {
    var c := rc[k];
    NoMistake(g, wcs, unresolved, f);
    NoMistake(g, wcs, unresolved, c);
    NotSpoiled(wcs0, wcs, unresolved0, unresolved, open, f);
    MissingPassed(g, wcs, unresolved, f, c);
    var unresolved' := unresolved[f := unresolved[f] + unresolved[c]];
    forall h ensures KeptAt(wcs0, wcs, unresolved0, unresolved', open, h) {
      NotSpoiled(wcs0, wcs, unresolved0, unresolved, open, h);
    }
    ScanGrows(wcs0, wcs, unresolved0, unresolved, f, rc, k, callMax, open);
    DepthsGrow(wcs0, wcs, unresolved0, unresolved, rc, k, callMax, open);
  }

  lemma MissingPassed(g: Graph, wcs: Found, unresolved: Missing, f: Fxn, c: Fxn)
    requires Mistakes(g, wcs, unresolved) == {} && f in g && c in g[f].callees && c in g
    requires f in wcs ==> wcs[f] == Unbounded
    ensures f in unresolved && c in unresolved
    ensures Mistakes(g, wcs, unresolved[f := unresolved[f] + unresolved[c]]) == {}
  {
    NoMistake(g, wcs, unresolved, f);
    NoMistake(g, wcs, unresolved, c);
    forall u | u in unresolved[c] ensures MissingBelow(g, f, u) {
      CalleeMissing(g, f, c, u);
    }
    var unresolved' := unresolved[f := unresolved[f] + unresolved[c]];
    forall h ensures RightAt(g, wcs, unresolved', h) {
      NoMistake(g, wcs, unresolved, h);
    }
  }

  lemma ScanGrows(wcs0: Found, wcs: Found, unresolved0: Missing, unresolved: Missing,
                  f: Fxn, rc: seq<Fxn>, k: nat, callMax: nat, open: set<Fxn>)
    requires k < |rc| && Unscanned(wcs0, unresolved0, f, rc, k, callMax) == {}
    requires Spoiled(wcs0, wcs, unresolved0, unresolved, open) == {}
    requires rc[k] in wcs && wcs[rc[k]].Bytes? && f in unresolved && rc[k] in unresolved
    requires f in wcs ==> wcs[f] == Unbounded
    ensures var most := if wcs[rc[k]].n > callMax then wcs[rc[k]].n else callMax;
            Unscanned(wcs, unresolved[f := unresolved[f] + unresolved[rc[k]]], f, rc, k + 1, most) == {}
  {
    var most := if wcs[rc[k]].n > callMax then wcs[rc[k]].n else callMax;
    var unresolved' := unresolved[f := unresolved[f] + unresolved[rc[k]]];
    forall j: nat | j < k + 1
      ensures && rc[j] in wcs && wcs[rc[j]].Bytes? && wcs[rc[j]].n <= most
              && rc[j] in unresolved' && unresolved'[rc[j]] <= unresolved'[f]
    {
      if j < k {
        assert j !in Unscanned(wcs0, unresolved0, f, rc, k, callMax);
        NotSpoiled(wcs0, wcs, unresolved0, unresolved, open, rc[j]);
        NotSpoiled(wcs0, wcs, unresolved0, unresolved, open, f);
      }
    }
  }

  lemma DepthsGrow(wcs0: Found, wcs: Found, unresolved0: Missing, unresolved: Missing,
                   rc: seq<Fxn>, k: nat, callMax: nat, open: set<Fxn>)
    requires k < |rc| && (callMax == 0 || callMax in Depths(wcs0, rc[..k]))
    requires Spoiled(wcs0, wcs, unresolved0, unresolved, open) == {}
    requires rc[k] in wcs && wcs[rc[k]].Bytes?
    ensures wcs[rc[k]].n in Depths(wcs, rc[..k + 1])
    ensures callMax == 0 || callMax in Depths(wcs, rc[..k + 1])
  {
    assert rc[..k + 1] == rc[..k] + [rc[k]];
    if callMax != 0 {
      var c :| c in rc[..k] && c in wcs0 && wcs0[c] == Bytes(callMax);
      NotSpoiled(wcs0, wcs, unresolved0, unresolved, open, c);
      assert c in rc[..k + 1] && wcs[c].n in Depths(wcs, rc[..k + 1]);
    }
  }

  /** All callees scanned: the sum is the worst case, and nothing is missing. */
  lemma ScanDone(g: Graph, wcs: Found, unresolved: Missing, f: Fxn, rc: seq<Fxn>, callMax: nat, n: nat,
                 open: set<Fxn>)
    requires Mistakes(g, wcs, unresolved) == {}
    requires f in g && !g[f].hasPtrCall && Elements(rc) == g[f].callees && f !in open
             && (f in wcs ==> wcs[f] == Unbounded)
    requires Unscanned(wcs, unresolved, f, rc, |rc|, callMax) == {} && (callMax == 0 || callMax in Depths(wcs, rc))
    requires n == callMax + g[f].localStack
    ensures var wcs' := wcs[f := Bytes(n)];
            Mistakes(g, wcs', unresolved) == {} && Spoiled(wcs, wcs', unresolved, unresolved, open) == {}
  {
    CalleesBounded(g, wcs, unresolved, f, rc, callMax);
    CalleeMaxOfScan(g, wcs, unresolved, f, rc, callMax);
    WorstOfCallees(g, f, callMax);
    NothingMissing(g, wcs, unresolved, f, rc, callMax);
    var wcs' := wcs[f := Bytes(n)];
    forall h ensures RightAt(g, wcs', unresolved, h) && KeptAt(wcs, wcs', unresolved, unresolved, open, h) {
      NoMistake(g, wcs, unresolved, h);
    }
  }

  lemma CalleesBounded(g: Graph, wcs: Found, unresolved: Missing, f: Fxn, rc: seq<Fxn>, callMax: nat)
    requires Mistakes(g, wcs, unresolved) == {} && f in g && !g[f].hasPtrCall && Elements(rc) == g[f].callees
    requires Unscanned(wcs, unresolved, f, rc, |rc|, callMax) == {}
    ensures !IsUnbounded(g, f)
  {
    forall c | c in g[f].callees ensures !IsUnbounded(g, c) {
      ScannedAt(wcs, unresolved, f, rc, callMax, c);
      NoMistake(g, wcs, unresolved, c);
    }
    if IsUnbounded(g, f) {
      var c := UnboundedCallee(g, f);
    }
  }

  lemma ScannedAt(wcs: Found, unresolved: Missing, f: Fxn, rc: seq<Fxn>, callMax: nat, c: Fxn)
    requires Unscanned(wcs, unresolved, f, rc, |rc|, callMax) == {} && c in Elements(rc)
    ensures c in wcs && wcs[c].Bytes? && wcs[c].n <= callMax
    ensures f in unresolved && c in unresolved && unresolved[c] <= unresolved[f]
  {
    var j: nat :| j < |rc| && rc[j] == c;
    assert j !in Unscanned(wcs, unresolved, f, rc, |rc|, callMax);
  }

  lemma CalleeMaxOfScan(g: Graph, wcs: Found, unresolved: Missing, f: Fxn, rc: seq<Fxn>, callMax: nat)
    requires Mistakes(g, wcs, unresolved) == {} && f in g && Elements(rc) == g[f].callees
    requires Unscanned(wcs, unresolved, f, rc, |rc|, callMax) == {} && (callMax == 0 || callMax in Depths(wcs, rc))
    ensures IsCalleeMax(g, g[f].callees, callMax)
  {
    forall c | c in g[f].callees ensures exists n: nat :: n <= callMax && IsWorst(g, c, n) {
      ScannedAt(wcs, unresolved, f, rc, callMax, c);
      NoMistake(g, wcs, unresolved, c);
      assert IsWorst(g, c, wcs[c].n);
    }
    if callMax != 0 {
      var c :| c in rc && c in wcs && wcs[c] == Bytes(callMax);
      NoMistake(g, wcs, unresolved, c);
      assert c in Elements(rc) && IsWorst(g, c, callMax);
    }
  }

  lemma NothingMissing(g: Graph, wcs: Found, unresolved: Missing, f: Fxn, rc: seq<Fxn>, callMax: nat)
    requires Mistakes(g, wcs, unresolved) == {} && f in g && Elements(rc) == g[f].callees
    requires Unscanned(wcs, unresolved, f, rc, |rc|, callMax) == {}
    ensures f in unresolved
    ensures forall u :: MissingBelow(g, f, u) ==> u in unresolved[f]
  {
    NoMistake(g, wcs, unresolved, f);
    forall u | MissingBelow(g, f, u) ensures u in unresolved[f] {
      MissingFrom(g, f, u);
      if u !in g[f].missing {
        var c :| c in g[f].callees && MissingBelow(g, c, u);
        ScannedAt(wcs, unresolved, f, rc, callMax, c);
        NoMistake(g, wcs, unresolved, c);
      }
    }
  }

  /** Writing that f is unbounded. */
  lemma NoteUnbounded(g: Graph, wcs: Found, unresolved: Missing, f: Fxn, open: set<Fxn>)
    requires Mistakes(g, wcs, unresolved) == {} && f in g && IsUnbounded(g, f) && (f in wcs ==> wcs[f] == Unbounded)
    ensures Mistakes(g, wcs[f := Unbounded], unresolved) == {}
    ensures Spoiled(wcs, wcs[f := Unbounded], unresolved, unresolved, open) == {}
  {
    var wcs' := wcs[f := Unbounded];
    forall h ensures RightAt(g, wcs', unresolved, h) {
      NoMistake(g, wcs, unresolved, h);
    }
  }

  // The analyser

  datatype Lookup = NotFound | At(fxn: Fxn)

  type Globals = map<string, Fxn>
  type Locals = map<string, map<string, Fxn>>

  /** A global of the name wins over a local one of the calling unit. */
  function FindFxn(globals: Globals, locals: Locals, tu: string, call: string): Lookup {
    if call in globals then At(globals[call])
    else if call in locals && tu in locals[call] then At(locals[call][tu])
    else NotFound
  }

  /** The functions some of the names called in tu stand for, and the names that stand for none. */
  ghost function Callees(globals: Globals, locals: Locals, tu: string, calls: set<string>): set<Fxn> {
    set call | call in calls && FindFxn(globals, locals, tu, call).At? :: FindFxn(globals, locals, tu, call).fxn
  }

  ghost function Missed(globals: Globals, locals: Locals, tu: string, calls: set<string>): set<string> {
    set call | call in calls && FindFxn(globals, locals, tu, call).NotFound?
  }

  lemma OneMoreOwn(g: Graph, fs: set<Fxn>, f: Fxn)
    requires f in g
    ensures OwnCalls(g, fs + {f}) == OwnCalls(g, fs)[f := g[f].missing]
  {
  }

  lemma OneMoreCall(globals: Globals, locals: Locals, tu: string, calls: set<string>, call: string, rc: seq<Fxn>)
    requires Elements(rc) == Callees(globals, locals, tu, calls)
    ensures match FindFxn(globals, locals, tu, call)
            case At(c) =>
              && Elements(rc + [c]) == Callees(globals, locals, tu, calls + {call})
              && Missed(globals, locals, tu, calls) == Missed(globals, locals, tu, calls + {call})
            case NotFound =>
              && Elements(rc) == Callees(globals, locals, tu, calls + {call})
              && Missed(globals, locals, tu, calls) + {call} == Missed(globals, locals, tu, calls + {call})
  {
    var more := calls + {call};
    var before, after := Callees(globals, locals, tu, calls), Callees(globals, locals, tu, more);
    forall c | c in before ensures c in after {
      var other :| other in calls && FindFxn(globals, locals, tu, other) == At(c);
      assert other in more;
    }
    if FindFxn(globals, locals, tu, call).At? {
      var c := FindFxn(globals, locals, tu, call).fxn;
      assert call in more && c in after;
      assert after == before + {c} && Elements(rc + [c]) == Elements(rc) + {c};
    } else {
      assert after == before;
    }
  }

  ghost function NodeOf(globals: Globals, locals: Locals, d: Decl): Node {
    Node(d.hasPtrCall, d.localStack, Callees(globals, locals, d.tu, d.calls), Missed(globals, locals, d.tu, d.calls))
  }

  ghost function OwnCalls(g: Graph, fs: set<Fxn>): Missing {
    map f | f in fs && f in g :: g[f].missing
  }

  /** The graph the names stand for. */
  ghost function Resolved(decls: map<Fxn, Decl>, globals: Globals, locals: Locals): Graph {
    map f | f in decls :: NodeOf(globals, locals, decls[f])
  }

  // What the names stand for, by the tables alone

  /** A name called in unit tu means the global of that name, or if there is none, the unit's own local. */
  ghost predicate StandsFor(globals: Globals, locals: Locals, tu: string, name: string, c: Fxn) {
    if name in globals then globals[name] == c
    else name in locals && tu in locals[name] && locals[name][tu] == c
  }

  ghost predicate StandsForNone(globals: Globals, locals: Locals, tu: string, name: string) {
    name !in globals && (name !in locals || tu !in locals[name])
  }

  ghost predicate CalleesAre(globals: Globals, locals: Locals, d: Decl, callees: set<Fxn>, missing: set<string>) {
    && (forall c :: c in callees <==> exists name :: name in d.calls && StandsFor(globals, locals, d.tu, name, c))
    && (forall name :: name in missing <==> name in d.calls && StandsForNone(globals, locals, d.tu, name))
  }

  /** g is the call graph of the declared functions. */
  ghost predicate IsGraph(decls: map<Fxn, Decl>, globals: Globals, locals: Locals, g: Graph) {
    && g.Keys == decls.Keys
    && forall f :: f in g ==>
         && g[f].hasPtrCall == decls[f].hasPtrCall && g[f].localStack == decls[f].localStack
         && CalleesAre(globals, locals, decls[f], g[f].callees, g[f].missing)
  }

  lemma FindIsRight(globals: Globals, locals: Locals, tu: string, name: string, c: Fxn)
    ensures FindFxn(globals, locals, tu, name) == At(c) <==> StandsFor(globals, locals, tu, name, c)
    ensures FindFxn(globals, locals, tu, name) == NotFound <==> StandsForNone(globals, locals, tu, name)
  {
  }

  /** The lookup finds what the tables say. */
  lemma LookupIsRight(globals: Globals, locals: Locals, d: Decl)
    ensures CalleesAre(globals, locals, d, Callees(globals, locals, d.tu, d.calls),
                       Missed(globals, locals, d.tu, d.calls))
  {
    var callees := Callees(globals, locals, d.tu, d.calls);
    forall c ensures c in callees <==> exists name :: name in d.calls && StandsFor(globals, locals, d.tu, name, c) {
      if c in callees {
        var name :| name in d.calls && FindFxn(globals, locals, d.tu, name) == At(c);
        FindIsRight(globals, locals, d.tu, name, c);
      }
      if name :| name in d.calls && StandsFor(globals, locals, d.tu, name, c) {
        FindIsRight(globals, locals, d.tu, name, c);
        assert FindFxn(globals, locals, d.tu, name).fxn in callees;
      }
    }
    forall name ensures name in Missed(globals, locals, d.tu, d.calls) <==>
                        name in d.calls && StandsForNone(globals, locals, d.tu, name)
    {
      FindIsRight(globals, locals, d.tu, name, 0);
    }
  }

  /** So the graph the search works on is the call graph. */
  lemma ResolvedIsGraph(decls: map<Fxn, Decl>, globals: Globals, locals: Locals)
    ensures IsGraph(decls, globals, locals, Resolved(decls, globals, locals))
  {
    forall f | f in decls
      ensures var n := Resolved(decls, globals, locals)[f];
              CalleesAre(globals, locals, decls[f], n.callees, n.missing)
    {
      LookupIsRight(globals, locals, decls[f]);
    }
  }

  /** The tables hold declared functions, and manual entries call nothing. */
  ghost predicate Declared(decls: map<Fxn, Decl>, globals: Globals, locals: Locals) {
    && (forall n :: n in globals ==> globals[n] in decls)
    && (forall n, t :: n in locals && t in locals[n] ==> locals[n][t] in decls)
    && (forall f :: f in decls && decls[f].manual ==> decls[f].calls == {} && !decls[f].hasPtrCall)
  }

  /** The call graph of WCS.py: a table of global functions by name, a table of local
      ones by name and translation unit, and the results written into the entries. */
  class Analyser {
    const decls: map<Fxn, Decl>
    const globals: Globals
    const locals: Locals
    ghost const graph: Graph
    var rCalls: map<Fxn, seq<Fxn>>
    var unresolved: Missing
    var wcs: Found
    var parents: seq<Fxn>

    constructor (decls: map<Fxn, Decl>, globals: Globals, locals: Locals)
      ensures this.decls == decls && this.globals == globals && this.locals == locals
      ensures graph == Resolved(decls, globals, locals)
      ensures parents == [] && rCalls == map[] && unresolved == map[]
      ensures wcs == map f | f in decls && decls[f].manual :: Bytes(decls[f].localStack)
    {
      this.decls := decls;
      this.globals := globals;
      this.locals := locals;
      graph := Resolved(decls, globals, locals);
      rCalls := map[];
      unresolved := map[];
      wcs := map f | f in decls && decls[f].manual :: Bytes(decls[f].localStack);
      parents := [];
    }

    /** f's entry holds what its names stand for. */
    ghost predicate LinkedAt(f: Fxn)
      reads this`rCalls
    {
      && f in decls && f in graph && f in rCalls && Elements(rCalls[f]) == graph[f].callees
      && graph[f].hasPtrCall == decls[f].hasPtrCall && graph[f].localStack == decls[f].localStack
      && graph[f].callees <= decls.Keys
    }

    ghost function Unlinked(): set<Fxn>
      reads this`rCalls
    {
      set f | f in decls.Keys + graph.Keys && !LinkedAt(f)
    }

    method ResolveCalls(f: Fxn) returns (rc: seq<Fxn>, missing: set<string>)
      requires f in decls
      ensures Elements(rc) == Callees(globals, locals, decls[f].tu, decls[f].calls)
      ensures missing == Missed(globals, locals, decls[f].tu, decls[f].calls)
      ensures CalleesAre(globals, locals, decls[f], Elements(rc), missing)
    {
      var d := decls[f];
      var todo := d.calls;
      rc, missing := [], {};
      assert Callees(globals, locals, d.tu, {}) == {} && Missed(globals, locals, d.tu, {}) == {};
      assert d.calls - todo == {};
      while todo != {}
        invariant todo <= d.calls
        invariant Elements(rc) == Callees(globals, locals, d.tu, d.calls - todo)
        invariant missing == Missed(globals, locals, d.tu, d.calls - todo)
        decreases |todo|
      {
        var call :| call in todo;
        OneMoreCall(globals, locals, d.tu, d.calls - todo, call, rc);
        assert d.calls - (todo - {call}) == d.calls - todo + {call};
        todo := todo - {call};
        match FindFxn(globals, locals, d.tu, call) {
          case At(c) => rc := rc + [c];
          case NotFound => missing := missing + {call};
        }
      }
      assert d.calls - todo == d.calls;
      LookupIsRight(globals, locals, d);
    }

    method ResolveAllCalls()
      requires rCalls == map[] && unresolved == map[] && graph == Resolved(decls, globals, locals)
      requires Declared(decls, globals, locals)
      modifies this`rCalls, this`unresolved
      ensures Unlinked() == {} && IsGraph(decls, globals, locals, graph)
      ensures unresolved == OwnCalls(graph, decls.Keys)
    {
      var todo := decls.Keys;
      assert decls.Keys - todo == {};
      while todo != {}
        invariant todo <= decls.Keys && Unlinked() <= todo
        invariant unresolved == OwnCalls(graph, decls.Keys - todo)
        decreases |todo|
      {
        var f :| f in todo;
        ghost var done := decls.Keys - todo;
        var rc, missing := ResolveCalls(f);
        label Before:
        rCalls := rCalls[f := rc];
        OneMoreLinked@Before(f);
        unresolved := unresolved[f := missing];
        OneMoreOwn(graph, done, f);
        assert decls.Keys - (todo - {f}) == done + {f};
        todo := todo - {f};
      }
      assert decls.Keys - todo == decls.Keys;
      ResolvedIsGraph(decls, globals, locals);
    }

    twostate lemma OneMoreLinked(f: Fxn)
      requires f in decls && f in rCalls && rCalls == old(rCalls)[f := rCalls[f]]
      requires graph == Resolved(decls, globals, locals) && Declared(decls, globals, locals)
      requires Elements(rCalls[f]) == Callees(globals, locals, decls[f].tu, decls[f].calls)
      ensures Unlinked() <= old(Unlinked()) - {f}
      ensures f in graph && graph[f].missing == Missed(globals, locals, decls[f].tu, decls[f].calls)
    {
    }

    ghost predicate Valid()
      reads this
    {
      Unlinked() == {} && Mistakes(graph, wcs, unresolved) == {}
    }

    lemma Entry(f: Fxn)
      requires Unlinked() == {} && f in decls
      ensures LinkedAt(f)
      ensures forall k :: 0 <= k < |rCalls[f]| ==> rCalls[f][k] in graph[f].callees
    {
      assert f !in Unlinked();
      assert forall k :: 0 <= k < |rCalls[f]| ==> rCalls[f][k] in Elements(rCalls[f]);
    }

    method CalcWcs(f: Fxn)
      requires Valid() && f in decls && CallChain(graph, parents + [f])
      modifies this`wcs, this`unresolved, this`parents
      ensures Valid() && parents == old(parents) && f in wcs
      ensures Spoiled(old(wcs), wcs, old(unresolved), unresolved, Elements(parents)) == {}
      decreases decls.Keys - Elements(parents)
    {
      ghost var open := Elements(parents);
      Entry(f);
      SpoiledNot(wcs, unresolved, open);
      if f in wcs {
        return;
      }
      if decls[f].hasPtrCall {
        PointerCallUnbounded(graph, f);
        NoteUnbounded(graph, wcs, unresolved, f, open);
        wcs := wcs[f := Unbounded];
        return;
      }
      if f in parents {
        OnCycle(f);
        NoteUnbounded(graph, wcs, unresolved, f, open);
        wcs := wcs[f := Unbounded];
        return;
      }
      ghost var first, firstMissing := wcs, unresolved;
      var bounded, callMax := ScanCallees(f);
      if !bounded {
        NoteUnbounded(graph, wcs, unresolved, f, open);
        SpoiledTwice(first, wcs, wcs[f := Unbounded], firstMissing, unresolved, unresolved, open + {f}, open);
        wcs := wcs[f := Unbounded];
        return;
      }
      var n := callMax + decls[f].localStack;
      ScanDone(graph, wcs, unresolved, f, rCalls[f], callMax, n, open);
      SpoiledTwice(first, wcs, wcs[f := Bytes(n)], firstMissing, unresolved, unresolved, open + {f}, open);
      wcs := wcs[f := Bytes(n)];
    }

    /** The loop over the callees, left early at the first unbounded one. */
    method ScanCallees(f: Fxn) returns (bounded: bool, callMax: nat)
      requires Valid() && f in decls && f in rCalls && CallChain(graph, parents + [f])
      requires f !in parents && f !in wcs && !decls[f].hasPtrCall
      modifies this`wcs, this`unresolved, this`parents
      ensures Valid() && parents == old(parents)
      ensures Spoiled(old(wcs), wcs, old(unresolved), unresolved, Elements(parents) + {f}) == {}
      ensures f in wcs ==> wcs[f] == Unbounded
      ensures !bounded ==> IsUnbounded(graph, f)
      ensures bounded ==> Unscanned(wcs, unresolved, f, rCalls[f], |rCalls[f]|, callMax) == {}
      ensures bounded ==> callMax == 0 || callMax in Depths(wcs, rCalls[f])
      decreases decls.Keys - Elements(parents), 1
    {
      ghost var first, firstMissing, inner := wcs, unresolved, Elements(parents) + {f};
      Entry(f);
      SpoiledNot(wcs, unresolved, inner);
      var k, rc := 0, rCalls[f];
      callMax := 0;
      while k < |rc|
        invariant k <= |rc| && parents == old(parents) && Valid()
        invariant Spoiled(first, wcs, firstMissing, unresolved, inner) == {}
        invariant f in wcs ==> wcs[f] == Unbounded
        invariant Unscanned(wcs, unresolved, f, rc, k, callMax) == {}
        invariant callMax == 0 || callMax in Depths(wcs, rc[..k])
      {
        var c := rc[k];
        ghost var wcs0, unresolved0 := wcs, unresolved;
        Entry(c);
        CalcCallee(f, c);
        SpoiledTwice(first, wcs0, wcs, firstMissing, unresolved0, unresolved, inner, inner);
        NotSpoiled(first, wcs, firstMissing, unresolved, inner, f);
        NoMistake(graph, wcs, unresolved, c);
        if wcs[c].Unbounded? {
          CalleeUnbounded(graph, f, c);
          return false, callMax;
        }
        ScanStep(graph, wcs0, wcs, unresolved0, unresolved, f, rc, k, callMax, inner);
        unresolved := unresolved[f := unresolved[f] + unresolved[c]];
        SpoiledTwice(first, wcs0, wcs, firstMissing, unresolved0, unresolved, inner, inner);
        callMax := if wcs[c].n > callMax then wcs[c].n else callMax;
        k := k + 1;
      }
      assert rc[..k] == rc;
      bounded := true;
    }

    /** The recursive call, with the caller pushed on the list of parents. */
    method CalcCallee(f: Fxn, c: Fxn)
      requires Valid() && f in decls && f !in parents && CallChain(graph, parents + [f])
      requires f in graph && c in graph[f].callees && c in decls && c in graph
      modifies this`wcs, this`unresolved, this`parents
      ensures Valid() && parents == old(parents) && c in wcs
      ensures Spoiled(old(wcs), wcs, old(unresolved), unresolved, Elements(parents) + {f}) == {}
      decreases decls.Keys - Elements(parents), 0
    {
      ghost var open := Elements(parents);
      Entry(f);
      assert Last(parents + [f]) == f;
      ChainSnoc(graph, parents + [f], c);
      parents := parents + [f];
      assert Elements(parents) == open + {f} && f in decls.Keys - open;
      CalcWcs(c);
      parents := parents[..|parents| - 1];
    }

    lemma OnCycle(f: Fxn)
      requires f in parents && CallChain(graph, parents + [f])
      ensures IsUnbounded(graph, f)
    {
      var i :| 0 <= i < |parents| && parents[i] == f;
      CycleUnbounded(graph, parents + [f], i);
    }

    method CalcAllWcs()
      requires Valid() && parents == []
      modifies this`wcs, this`unresolved, this`parents
      ensures Valid() && decls.Keys <= wcs.Keys
    {
      var todo := decls.Keys;
      while todo != {}
        invariant todo <= decls.Keys <= wcs.Keys + todo && Valid() && parents == []
        decreases |todo|
      {
        var f :| f in todo;
        Entry(f);
        assert CallChain(graph, [f]);
        assert parents + [f] == [f];
        ghost var wcs0, unresolved0 := wcs, unresolved;
        CalcWcs(f);
        NothingLost(wcs0, wcs, unresolved0, unresolved, Elements(parents));
        todo := todo - {f};
      }
    }
  }

  lemma NothingLost(wcs: Found, wcs': Found, unresolved: Missing, unresolved': Missing, open: set<Fxn>)
    requires Spoiled(wcs, wcs', unresolved, unresolved', open) == {}
    ensures wcs.Keys <= wcs'.Keys
  {
    forall f | f in wcs ensures f in wcs' {
      NotSpoiled(wcs, wcs', unresolved, unresolved', open, f);
    }
  }

  /** Before the search only the manual entries have results. */
  lemma StartsRight(decls: map<Fxn, Decl>, globals: Globals, locals: Locals, wcs: Found, unresolved: Missing)
    requires Declared(decls, globals, locals)
    requires wcs == map f | f in decls && decls[f].manual :: Bytes(decls[f].localStack)
    requires unresolved == OwnCalls(Resolved(decls, globals, locals), decls.Keys)
    ensures Mistakes(Resolved(decls, globals, locals), wcs, unresolved) == {}
  {
    var g := Resolved(decls, globals, locals);
    forall f ensures RightAt(g, wcs, unresolved, f) {
      if f in g {
        forall u | u in unresolved[f] ensures MissingBelow(g, f, u) {
          OwnMissing(g, f, u);
        }
        if f in wcs {
          LeafCorrect(g, f);
        }
      }
    }
  }

  /** A function with nothing to call needs its own stack and misses nothing. */
  lemma LeafCorrect(g: Graph, f: Fxn)
    requires f in g && g[f].callees == {} && g[f].missing == {} && !g[f].hasPtrCall
    ensures Correct(g, f, Bytes(g[f].localStack))
    ensures forall u :: !MissingBelow(g, f, u)
  {
    if IsUnbounded(g, f) {
      var c := UnboundedCallee(g, f);
    }
    assert IsCalleeMax(g, g[f].callees, 0);
    WorstOfCallees(g, f, 0);
    forall u ensures !MissingBelow(g, f, u) {
      if MissingBelow(g, f, u) {
        MissingFrom(g, f, u);
      }
    }
  }

  /** The whole analysis, whatever order the functions are visited in: every function
      gets its true worst case, and a bounded one exactly the calls missing below it. */
  method Analyse(decls: map<Fxn, Decl>, globals: Globals, locals: Locals) returns (a: Analyser)
    requires Declared(decls, globals, locals)
    ensures fresh(a) && decls.Keys <= a.wcs.Keys
    ensures IsGraph(decls, globals, locals, a.graph)
    ensures forall f :: f in decls ==> Correct(a.graph, f, a.wcs[f])
    ensures forall f, u :: f in decls && a.wcs[f].Bytes? ==>
              f in a.unresolved && (u in a.unresolved[f] <==> MissingBelow(a.graph, f, u))
  {
    a := new Analyser(decls, globals, locals);
    a.ResolveAllCalls();
    StartsRight(decls, globals, locals, a.wcs, a.unresolved);
    a.CalcAllWcs();
    forall f | f in decls ensures RightAt(a.graph, a.wcs, a.unresolved, f) {
      NoMistake(a.graph, a.wcs, a.unresolved, f);
    }
  }
}
