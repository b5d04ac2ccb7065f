/** What the mailbox and the message queue are for: a deque of messages, told by its
    history of sends, urgent sends, receives and resets. */
module DequeHistory {
  datatype Event<T> = Sent(item: T) | Urged(item: T) | Taken(item: T) | Cleared

  function Apply<T>(q: seq<T>, e: Event<T>): seq<T> {
    match e
    case Sent(x) => q + [x]
    case Urged(x) => [x] + q
    case Taken(_) => if q == [] then [] else q[1..]
    case Cleared => []
  }

  /** What is queued after history h. */
  function Replay<T>(h: seq<Event<T>>): seq<T> {
    if h == [] then [] else Apply(Replay(h[..|h| - 1]), h[|h| - 1])
  }

  /** Every receive took the front message. */
  ghost predicate Legal<T(!new)>(h: seq<Event<T>>) {
    h == [] ||
    (var q, e := Replay(h[..|h| - 1]), h[|h| - 1];
     Legal(h[..|h| - 1]) && (e.Taken? ==> q != [] && q[0] == e.item))
  }

  lemma OneMore<T(!new)>(h: seq<Event<T>>, e: Event<T>)
    ensures Replay(h + [e]) == Apply(Replay(h), e)
    ensures Legal(h + [e]) <==> Legal(h) && (e.Taken? ==> Replay(h) != [] && Replay(h)[0] == e.item)
  {
    assert (h + [e])[..|h|] == h;
  }

  /** The messages that came in, went out to receivers, and were thrown away by resets. */
  function Arrivals<T>(h: seq<Event<T>>): seq<T> {
    if h == [] then []
    else var e, before := h[|h| - 1], Arrivals(h[..|h| - 1]);
      if e.Sent? || e.Urged? then before + [e.item] else before
  }

  function Receipts<T>(h: seq<Event<T>>): seq<T> {
    if h == [] then []
    else var e, before := h[|h| - 1], Receipts(h[..|h| - 1]);
      if e.Taken? then before + [e.item] else before
  }

  function Discards<T>(h: seq<Event<T>>): seq<T> {
    if h == [] then []
    else var e, before := h[|h| - 1], Discards(h[..|h| - 1]);
      if e.Cleared? then before + Replay(h[..|h| - 1]) else before
  }

  lemma OneMoreReceipt<T(!new)>(h: seq<Event<T>>, e: Event<T>)
    ensures Receipts(h + [e]) == Receipts(h) + if e.Taken? then [e.item] else []
  {
    assert (h + [e])[..|h|] == h;
  }

  lemma OneMoreArrival<T(!new)>(h: seq<Event<T>>, e: Event<T>)
    ensures Arrivals(h + [e]) == Arrivals(h) + if e.Sent? || e.Urged? then [e.item] else []
  {
    assert (h + [e])[..|h|] == h;
  }

  /** Every arrival is received once, thrown away once, or still queued. */
  lemma {:induction false} Conserved<T(!new)>(h: seq<Event<T>>)
    requires Legal(h)
    ensures multiset(Arrivals(h)) == multiset(Receipts(h)) + multiset(Discards(h)) + multiset(Replay(h))
  {
    if h != [] {
      var front, q := h[..|h| - 1], Replay(h[..|h| - 1]);
      Conserved(front);
      if h[|h| - 1].Taken? {
        assert q == [q[0]] + q[1..];
      }
    }
  }

  /** Sends and receives only. */
  ghost predicate Ordinary<T(!new)>(h: seq<Event<T>>) {
    h == [] || ((h[|h| - 1].Sent? || h[|h| - 1].Taken?) && Ordinary(h[..|h| - 1]))
  }

  lemma OneMoreOrdinary<T(!new)>(h: seq<Event<T>>, e: Event<T>)
    requires Ordinary(h) && (e.Sent? || e.Taken?)
    ensures Ordinary(h + [e])
  {
    assert (h + [e])[..|h|] == h;
  }

  /** Without urgent sends and resets, receives follow the order of the sends. */
  lemma {:induction false} FifoOrder<T(!new)>(h: seq<Event<T>>)
    requires Legal(h) && Ordinary(h)
    ensures Arrivals(h) == Receipts(h) + Replay(h)
  {
    if h != [] {
      var front, q := h[..|h| - 1], Replay(h[..|h| - 1]);
      FifoOrder(front);
      if h[|h| - 1].Taken? {
        assert q == [q[0]] + q[1..];
      }
    }
  }

  /** An urgent message overtakes: more sends later it still stands in front of all
      that was queued before it. */
  lemma {:induction false} UrgentOvertakes<T(!new)>(h: seq<Event<T>>, x: T, more: seq<Event<T>>)
    returns (front: seq<T>, back: seq<T>)
    requires forall i :: 0 <= i < |more| ==> more[i].Sent? || more[i].Urged?
    ensures Replay(h + [Urged(x)] + more) == front + [x] + Replay(h) + back
  {
    if more == [] {
      OneMore(h, Urged(x));
      assert h + [Urged(x)] + more == h + [Urged(x)];
      front, back := [], [];
    } else {
      var init, e := more[..|more| - 1], more[|more| - 1];
      front, back := UrgentOvertakes(h, x, init);
      assert h + [Urged(x)] + more == h + [Urged(x)] + init + [e];
      OneMore(h + [Urged(x)] + init, e);
      if e.Sent? {
        assert front + [x] + Replay(h) + back + [e.item] == front + [x] + Replay(h) + (back + [e.item]);
        back := back + [e.item];
      } else {
        assert [e.item] + (front + [x] + Replay(h) + back) == ([e.item] + front) + [x] + Replay(h) + back;
        front := [e.item] + front;
      }
    }
  }
}
