/** The circular doubly linked list under every kernel queue (rtservice.h).
    Nodes are addresses; the memory maps each one to its two links. */
module RtList {
  import opened Sequences

  datatype Link = Link(next: int, prev: int)

  type Links = map<int, Link>

  // What the links spell

  /** a and b point at each other. */
  ghost predicate Edge(links: Links, a: int, b: int) {
    a in links && b in links && links[a].next == b && links[b].prev == a
  }

  /** Following next from p visits s and then q, and prev leads back. */
  ghost predicate Path(links: Links, p: int, s: seq<int>, q: int)
    decreases |s|
  {
    if s == [] then Edge(links, p, q) else Edge(links, p, s[0]) && Path(links, s[0], s[1..], q)
  }

  /** The list with head h holds s, in order, each node once. */
  ghost predicate Ring(links: Links, h: int, s: seq<int>) {
    Distinct([h] + s) && Path(links, h, s, h)
  }

  lemma {:induction false} PathSplit(links: Links, p: int, s: seq<int>, x: int, t: seq<int>, q: int)
    ensures Path(links, p, s + [x] + t, q) <==> Path(links, p, s, x) && Path(links, x, t, q)
    decreases |s|
  {
    if s == [] {
      assert s + [x] + t == [x] + t && ([x] + t)[1..] == t;
    } else {
      assert (s + [x] + t)[1..] == s[1..] + [x] + t;
      PathSplit(links, s[0], s[1..], x, t, q);
    }
  }

  /** A path depends on the next links of all but its end and the prev links of
      all but its start. */
  lemma {:induction false} PathFrame(links: Links, links': Links, p: int, s: seq<int>, q: int)
    requires Path(links, p, s, q)
    requires p in links && p in links' && links'[p].next == links[p].next
    requires q in links && q in links' && links'[q].prev == links[q].prev
    requires forall x :: x in s && x in links ==> x in links' && links'[x] == links[x]
    ensures Path(links', p, s, q)
    decreases |s|
  {
    if s != [] {
      PathEnds(links, s[0], s[1..], q);
      PathFrame(links, links', s[0], s[1..], q);
    }
  }

  /** The links at both ends of a path. */
  lemma {:induction false} PathEnds(links: Links, p: int, s: seq<int>, q: int)
    requires Path(links, p, s, q)
    ensures p in links && q in links
    ensures links[p].next == (if s == [] then q else s[0])
    ensures links[q].prev == (if s == [] then p else s[|s| - 1])
    ensures forall x :: x in s ==> x in links
    decreases |s|
  {
    if s != [] {
      PathEnds(links, s[0], s[1..], q);
    }
  }

  // Insertion and removal

  /** n linked in between neighbours a and b. */
  ghost function Inserted(links: Links, a: int, n: int, b: int): Links
    requires a in links && b in links
  {
    var m := links[n := Link(b, a)];
    var m' := m[a := m[a].(next := n)];
    m'[b := m'[b].(prev := n)]
  }

  /** x taken out and linked to itself. */
  ghost function Removed(links: Links, x: int): Links
    requires x in links && links[x].next in links && links[x].prev in links
  {
    var a, b := links[x].prev, links[x].next;
    var m := links[b := links[b].(prev := a)];
    var m' := m[a := m[a].(next := b)];
    m'[x := Link(x, x)]
  }

  lemma PathInsert(links: Links, a: int, n: int, t: seq<int>, q: int)
    requires Path(links, a, t, q) && n !in [a] + t + [q]
    requires Distinct(t) && a !in t && q !in t
    ensures a in links && links[a].next in links && n != links[a].next
    ensures Path(Inserted(links, a, n, links[a].next), a, [n] + t, q)
  {
    PathEnds(links, a, t, q);
    var links' := Inserted(links, a, n, links[a].next);
    assert ([n] + t)[1..] == t;
    if t != [] {
      PathEnds(links, t[0], t[1..], q);
      PathFrame(links, links', t[0], t[1..], q);
    }
  }

  lemma PathRemove(links: Links, a: int, x: int, t: seq<int>, q: int)
    requires Path(links, a, [x] + t, q)
    requires Distinct([x] + t) && a !in [x] + t && q !in [x] + t
    ensures x in links && links[x].next in links && links[x].prev == a && a in links
    ensures Path(Removed(links, x), a, t, q)
  {
    assert ([x] + t)[1..] == t;
    PathEnds(links, x, t, q);
    var links' := Removed(links, x);
    if t != [] {
      PathEnds(links, t[0], t[1..], q);
      PathFrame(links, links', t[0], t[1..], q);
    }
  }

  // The same for whole lists

  /** The node before position i of the list: its head, or an element. */
  function NodeBefore(h: int, s: seq<int>, i: nat): int
    requires i <= |s|
  {
    if i == 0 then h else s[i - 1]
  }

  function NodeAt(h: int, s: seq<int>, i: nat): int
    requires i <= |s|
  {
    if i == |s| then h else s[i]
  }

  lemma RingFacts(links: Links, h: int, s: seq<int>)
    requires Ring(links, h, s)
    ensures Distinct(s) && h !in s
    ensures h in links && forall x :: x in s ==> x in links
  {
    DistinctConcat([h], s);
    PathEnds(links, h, s, h);
  }

  lemma HeaderIsLast(links: Links, h: int, s: seq<int>, i: nat)
    requires Ring(links, h, s) && i <= |s|
    ensures NodeAt(h, s, i) == h <==> i == |s|
    ensures NodeAt(h, s, i) in links
  {
    RingFacts(links, h, s);
    assert i < |s| ==> s[i] in s;
  }

  /** The ring cut at an element: what comes before it and what follows. */
  lemma RingCut(links: Links, h: int, s: seq<int>, i: nat)
    requires Ring(links, h, s) && i < |s|
    ensures Path(links, h, s[..i], s[i]) && Path(links, s[i], s[i + 1..], h)
    ensures Distinct(s[..i]) && Distinct(s[i + 1..]) && s[i] !in s[..i] && s[i] !in s[i + 1..]
    ensures h != s[i] && h !in s[..i] && h !in s[i + 1..]
    ensures forall x :: x in s[..i] ==> x !in s[i + 1..]
  {
    RingFacts(links, h, s);
    assert s == s[..i] + [s[i]] + s[i + 1..];
    PathSplit(links, h, s[..i], s[i], s[i + 1..], h);
    DistinctConcat(s[..i] + [s[i]], s[i + 1..]);
    DistinctConcat(s[..i], [s[i]]);
  }

  lemma RingNeighbours(links: Links, h: int, s: seq<int>, i: nat)
    requires Ring(links, h, s) && i <= |s|
    ensures NodeBefore(h, s, i) in links && NodeAt(h, s, i) in links
    ensures links[NodeBefore(h, s, i)].next == NodeAt(h, s, i)
    ensures links[NodeAt(h, s, i)].prev == NodeBefore(h, s, i)
  {
    PathEnds(links, h, s, h);
    if i < |s| {
      RingCut(links, h, s, i);
      PathEnds(links, h, s[..i], s[i]);
    }
    if i > 0 {
      RingCut(links, h, s, i - 1);
      PathEnds(links, s[i - 1], s[i..], h);
    }
  }

  lemma RingInsert(links: Links, h: int, s: seq<int>, i: nat, n: int)
    requires Ring(links, h, s) && i <= |s| && n !in [h] + s
    ensures NodeBefore(h, s, i) in links && NodeAt(h, s, i) in links
    ensures Ring(Inserted(links, NodeBefore(h, s, i), n, NodeAt(h, s, i)), h, s[..i] + [n] + s[i..])
  {
    RingNeighbours(links, h, s, i);
    RingFacts(links, h, s);
    var a, b := NodeBefore(h, s, i), NodeAt(h, s, i);
    var links' := Inserted(links, a, n, b);
    DistinctInsert(h, s, i, n);
    if i == 0 {
      PathInsert(links, h, n, s, h);
      assert s[..i] + [n] + s[i..] == [n] + s;
    } else {
      RingCut(links, h, s, i - 1);
      InsertInside(links, h, s[..i - 1], a, n, s[i..]);
      assert s[..i - 1] + [a] + ([n] + s[i..]) == s[..i] + [n] + s[i..];
    }
  }

  lemma InsertInside(links: Links, h: int, front: seq<int>, a: int, n: int, t: seq<int>)
    requires Path(links, h, front, a) && Path(links, a, t, h)
    requires Distinct(t) && a !in front + t && h !in front + [a] + t && n !in [h] + front + [a] + t
    requires forall x :: x in front ==> x !in t
    ensures a in links && links[a].next in links
    ensures Path(Inserted(links, a, n, links[a].next), h, front + [a] + ([n] + t), h)
  {
    PathInsert(links, a, n, t, h);
    PathEnds(links, a, t, h);
    PathEnds(links, h, front, a);
    var links' := Inserted(links, a, n, links[a].next);
    PathFrame(links, links', h, front, a);
    PathSplit(links', h, front, a, [n] + t, h);
  }

  lemma RemoveInside(links: Links, h: int, front: seq<int>, a: int, x: int, t: seq<int>)
    requires Path(links, h, front, a) && Path(links, a, [x] + t, h)
    requires Distinct([x] + t) && a !in front + [x] + t && h !in front + [a, x] + t
    requires forall y :: y in front ==> y !in [x] + t
    ensures x in links && links[x].next in links && links[x].prev == a && a in links
    ensures Path(Removed(links, x), h, front + [a] + t, h)
  {
    PathRemove(links, a, x, t, h);
    PathEnds(links, a, [x] + t, h);
    assert ([x] + t)[1..] == t;
    PathEnds(links, x, t, h);
    PathEnds(links, h, front, a);
    var links' := Removed(links, x);
    PathFrame(links, links', h, front, a);
    PathSplit(links', h, front, a, t, h);
  }

  lemma DistinctInsert(h: int, s: seq<int>, i: nat, n: int)
    requires Distinct([h] + s) && i <= |s| && n !in [h] + s
    ensures Distinct([h] + (s[..i] + [n] + s[i..]))
  {
    DistinctConcat([h], s);
    assert s == s[..i] + s[i..];
    DistinctConcat(s[..i], s[i..]);
    DistinctConcat([n], s[i..]);
    DistinctConcat(s[..i], [n] + s[i..]);
    assert s[..i] + [n] + s[i..] == s[..i] + ([n] + s[i..]);
    DistinctConcat([h], s[..i] + [n] + s[i..]);
  }

  lemma RingRemove(links: Links, h: int, s: seq<int>, i: nat)
    requires Ring(links, h, s) && i < |s|
    ensures s[i] in links && links[s[i]].next in links && links[s[i]].prev in links
    ensures Ring(Removed(links, s[i]), h, s[..i] + s[i + 1..])
    ensures Ring(Removed(links, s[i]), s[i], [])
  {
    DistinctRemove(h, s, i);
    var x, t := s[i], s[i + 1..];
    if i == 0 {
      RingCut(links, h, s, 0);
      assert s == [x] + t && s[..i] + t == t;
      PathRemove(links, h, x, t, h);
    } else {
      RingCut(links, h, s, i - 1);
      assert s[i..] == [x] + t;
      RemoveInside(links, h, s[..i - 1], s[i - 1], x, t);
      assert s[..i - 1] + [s[i - 1]] + t == s[..i] + t;
    }
  }

  lemma DistinctRemove(h: int, s: seq<int>, i: nat)
    requires Distinct([h] + s) && i < |s|
    ensures Distinct([h] + (s[..i] + s[i + 1..]))
  {
    DistinctConcat([h], s);
    assert s == s[..i] + ([s[i]] + s[i + 1..]);
    DistinctConcat(s[..i], [s[i]] + s[i + 1..]);
    DistinctConcat([s[i]], s[i + 1..]);
    DistinctConcat(s[..i], s[i + 1..]);
    DistinctConcat([h], s[..i] + s[i + 1..]);
  }

  /** A list whose nodes are not written keeps its contents. */
  lemma RingFrame(links: Links, links': Links, h: int, s: seq<int>)
    requires Ring(links, h, s)
    requires forall x :: x in [h] + s && x in links ==> x in links' && links'[x] == links[x]
    ensures Ring(links', h, s)
  {
    PathEnds(links, h, s, h);
    PathFrame(links, links', h, s, h);
  }

  /** Taking x out without touching its own links. */
  ghost function Unlinked(links: Links, x: int): Links
    requires x in links && links[x].next in links && links[x].prev in links
  {
    var a, b := links[x].prev, links[x].next;
    var m := links[b := links[b].(prev := a)];
    m[a := m[a].(next := b)]
  }

  lemma RingUnlink(links: Links, h: int, s: seq<int>, i: nat)
    requires Ring(links, h, s) && i < |s|
    ensures s[i] in links && links[s[i]].next in links && links[s[i]].prev in links
    ensures Ring(Unlinked(links, s[i]), h, s[..i] + s[i + 1..])
    ensures s[i] != h && s[i] !in s[..i] + s[i + 1..]
  {
    RingRemove(links, h, s, i);
    RingCut(links, h, s, i);
    RingFrame(Removed(links, s[i]), Unlinked(links, s[i]), h, s[..i] + s[i + 1..]);
  }

  // rt_list_init, rt_list_insert_after, rt_list_insert_before, rt_list_remove,
  // rt_list_isempty and rt_list_len

  class ListMemory {
    var links: Links

    /** Nodes outside `touched` keep their links. */
    twostate predicate OthersKept(touched: set<int>)
      reads this
    {
      forall x :: x in old(links) && x !in touched ==> x in links && links[x] == old(links)[x]
    }

    method Init(l: int)
      modifies this
      ensures Ring(links, l, []) && OthersKept({l})
    {
      links := links[l := Link(l, l)];
    }

    /** Inserts n after node l, which is the head or the element before position i. */
    method InsertAfter(l: int, n: int, ghost h: int, ghost s: seq<int>, ghost i: nat)
      requires Ring(links, h, s) && i <= |s| && l == NodeBefore(h, s, i) && n in links && n !in [h] + s
      modifies this
      ensures Ring(links, h, s[..i] + [n] + s[i..]) && OthersKept(set x | x in [h, n] + s)
    {
      RingInsert(links, h, s, i, n);
      RingNeighbours(links, h, s, i);
      var next := links[l].next;
      links := links[next := links[next].(prev := n)];
      links := links[n := links[n].(next := links[l].next)];
      links := links[l := links[l].(next := n)];
      links := links[n := links[n].(prev := l)];
      assert links == Inserted(old(links), l, n, next);
    }

    /** Inserts n before node l, which is the element at position i or the head. */
    method InsertBefore(l: int, n: int, ghost h: int, ghost s: seq<int>, ghost i: nat)
      requires Ring(links, h, s) && i <= |s| && l == NodeAt(h, s, i) && n in links && n !in [h] + s
      modifies this
      ensures Ring(links, h, s[..i] + [n] + s[i..]) && OthersKept(set x | x in [h, n] + s)
    {
      RingInsert(links, h, s, i, n);
      RingNeighbours(links, h, s, i);
      var prev := links[l].prev;
      links := links[prev := links[prev].(next := n)];
      links := links[n := links[n].(prev := links[l].prev)];
      links := links[l := links[l].(prev := n)];
      links := links[n := links[n].(next := l)];
      assert links == Inserted(old(links), prev, n, l);
    }

    method Remove(n: int, ghost h: int, ghost s: seq<int>, ghost i: nat)
      requires Ring(links, h, s) && i < |s| && n == s[i]
      modifies this
      ensures Ring(links, h, s[..i] + s[i + 1..]) && Ring(links, n, []) && OthersKept(set x | x in [h] + s)
    {
      RingRemove(links, h, s, i);
      RingNeighbours(links, h, s, i);
      RingNeighbours(links, h, s, i + 1);
      RingFacts(links, h, s);
      var next := links[n].next;
      links := links[next := links[next].(prev := links[n].prev)];
      var prev := links[n].prev;
      links := links[prev := links[prev].(next := links[n].next)];
      links := links[n := Link(n, n)];
      assert links == Removed(old(links), n);
    }

    method IsEmpty(l: int, ghost s: seq<int>) returns (empty: bool)
      requires Ring(links, l, s)
      ensures empty <==> s == []
    {
      RingFacts(links, l, s);
      RingNeighbours(links, l, s, 0);
      empty := links[l].next == l;
    }

    method Len(l: int, ghost s: seq<int>) returns (len: nat)
      requires Ring(links, l, s)
      ensures len == |s|
    {
      RingFacts(links, l, s);
      RingNeighbours(links, l, s, 0);
      len := 0;
      var p := l;
      while links[p].next != l
        invariant len <= |s| && p == NodeBefore(l, s, len)
        invariant p in links && links[p].next == NodeAt(l, s, len)
        decreases |s| - len
      {
        p := links[p].next;
        len := len + 1;
        RingNeighbours(links, l, s, len);
      }
    }
  }
}
