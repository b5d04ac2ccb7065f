/** The priority scheduler of the single-CPU build (scheduler.c, thread.c): one FIFO
    queue of ready threads for each of 32 priorities, indexed by the ready group.

    The placement invariant is kept as the sets of queues and threads out of place, which are
    empty, so that each operation is proved one queue and one thread at a time. */
module Scheduler {
  import opened ReadyGroup
  import opened Sequences

  type Thread = nat

  const NOBODY: int := -1

  datatype Stat = Init | Ready | Suspended | Running | Closed

  /** A thread: its state, whether it asked to yield, and its priorities. */
  datatype Tcb = Tcb(stat: Stat, yielding: bool, priority: Priority, initPriority: Priority)

  /** What the scheduler keeps, with the ready group read as a set of priorities; current is
      NOBODY until it is started. */
  datatype State = State(ready: map<Priority, seq<Thread>>, group: iset<Priority>, current: int,
                         threads: map<Thread, Tcb>, lockNest: nat)

  // The placement invariant

  /** Threads of queue p that do not belong there. */
  ghost function Strangers(s: State, p: Priority): set<Thread>
    requires p in s.ready
  {
    set t | t in s.ready[p] && !(t in s.threads && s.threads[t].stat == Ready && s.threads[t].priority == p)
  }

  /** Queue p holds ready threads of priority p, once each, and its bit says whether it is empty. */
  ghost predicate QueueAt(s: State, p: Priority) {
    p in s.ready && Distinct(s.ready[p]) && (p in s.group <==> s.ready[p] != []) && Strangers(s, p) == {}
  }

  /** A ready thread is in the queue of its priority and is not the current one, only the
      current thread runs, and it has been started. */
  ghost predicate ThreadAt(s: State, t: Thread)
    requires t in s.threads
  {
    var c := s.threads[t];
    && Legal(c.priority) && Legal(c.initPriority)
    && (c.stat == Ready ==> t != s.current && c.priority in s.ready && t in s.ready[c.priority])
    && (c.stat == Running ==> t == s.current)
    && (t == s.current ==> c.stat != Init)
  }

  ghost function BadQueues(s: State): iset<Priority> {
    iset p: Priority | Legal(p) && !QueueAt(s, p)
  }

  ghost function BadThreads(s: State): set<Thread> {
    set t | t in s.threads && !ThreadAt(s, t)
  }

  ghost predicate Placed(s: State) {
    BadQueues(s) == iset{} && BadThreads(s) == {} && (s.current == NOBODY || s.current in s.threads)
  }

  lemma Queue(s: State, p: Priority)
    requires BadQueues(s) == iset{} && Legal(p)
    ensures QueueAt(s, p)
  {
    assert p !in BadQueues(s);
  }

  lemma QueueMember(s: State, p: Priority, t: Thread)
    requires BadQueues(s) == iset{} && Legal(p) && p in s.ready && t in s.ready[p]
    ensures t in s.threads && s.threads[t].stat == Ready && s.threads[t].priority == p
  {
    Queue(s, p);
    assert t !in Strangers(s, p);
  }

  lemma ThreadOf(s: State, t: Thread)
    requires t in s.threads && t !in BadThreads(s)
    ensures ThreadAt(s, t)
  {
  }

  // Queue surgery

  /** rt_schedule_insert_thread. */
  ghost function Enlisted(s: State, t: Thread): State
    requires t in s.threads && s.threads[t].priority in s.ready
  {
    var c := s.threads[t];
    if t == s.current then s.(threads := s.threads[t := c.(stat := Running)])
    else s.(threads := s.threads[t := c.(stat := Ready)],
            ready := s.ready[c.priority := s.ready[c.priority] + [t]],
            group := s.group + iset{c.priority})
  }

  /** rt_schedule_remove_thread, and the thread becomes c. */
  ghost function RemovedAs(s: State, t: Thread, c: Tcb): State
    requires t in s.threads && s.threads[t].priority in s.ready
  {
    var p := s.threads[t].priority;
    var rest := Without(s.ready[p], t);
    s.(ready := s.ready[p := rest], group := if rest == [] then s.group - iset{p} else s.group,
       threads := s.threads[t := c])
  }

  ghost predicate NotQueued(s: State, t: Thread) {
    forall q: Priority :: q in s.ready && Legal(q) ==> t !in s.ready[q]
  }

  lemma NotReadyNotQueued(s: State, t: Thread)
    requires BadQueues(s) == iset{} && t in s.threads && s.threads[t].stat != Ready
    ensures NotQueued(s, t)
  {
    forall q: Priority | q in s.ready && Legal(q) ensures t !in s.ready[q] {
      if t in s.ready[q] {
        QueueMember(s, q, t);
      }
    }
  }

  /** A thread in no queue is put at the end of its own. */
  lemma InsertKeeps(s: State, t: Thread)
    requires BadQueues(s) == iset{} && t in s.threads && NotQueued(s, t)
    requires Legal(s.threads[t].priority)
    requires Legal(s.threads[t].initPriority)
    ensures s.threads[t].priority in s.ready
    ensures BadQueues(Enlisted(s, t)) == iset{} && BadThreads(Enlisted(s, t)) <= BadThreads(s) - {t}
  {
    var p := s.threads[t].priority;
    Queue(s, p);
    var s' := Enlisted(s, t);
    forall q: Priority | Legal(q) ensures QueueAt(s', q) {
      InsertQueue(s, t, q);
    }
    forall x | x in s'.threads && x !in BadThreads(s) - {t} ensures ThreadAt(s', x) {
      if x != t {
        ThreadOf(s, x);
        var q := s.threads[x].priority;
        assert q in s.ready && x in s.ready[q] ==> x in s'.ready[q];
      }
    }
  }

  lemma InsertQueue(s: State, t: Thread, q: Priority)
    requires BadQueues(s) == iset{} && t in s.threads && NotQueued(s, t)
    requires Legal(s.threads[t].priority) && Legal(q)
    ensures s.threads[t].priority in s.ready && QueueAt(Enlisted(s, t), q)
  {
    var p := s.threads[t].priority;
    Queue(s, p);
    Queue(s, q);
    var s' := Enlisted(s, t);
    forall x | x in s.ready[q] ensures x != t && x in s.threads && s.threads[x].stat == Ready
        && s.threads[x].priority == q {
      QueueMember(s, q, x);
    }
    DistinctConcat(s.ready[q], [t]);
  }

  /** A thread leaves its queue, if it is in one, for state c. */
  lemma RemoveKeeps(s: State, t: Thread, c: Tcb)
    requires BadQueues(s) == iset{} && t in s.threads
    requires Legal(s.threads[t].priority) && Legal(c.priority) && Legal(c.initPriority)
    ensures s.threads[t].priority in s.ready
    ensures BadQueues(RemovedAs(s, t, c)) == iset{} && NotQueued(RemovedAs(s, t, c), t)
    ensures BadThreads(RemovedAs(s, t, c)) <= BadThreads(s) + {t}
    ensures c.stat !in {Init, Ready} && (c.stat == Running ==> t == s.current) ==>
              BadThreads(RemovedAs(s, t, c)) <= BadThreads(s) - {t}
  {
    var p := s.threads[t].priority;
    Queue(s, p);
    var s' := RemovedAs(s, t, c);
    forall q: Priority | Legal(q) ensures QueueAt(s', q) && t !in s'.ready[q] {
      RemoveQueue(s, t, c, q);
    }
    WithoutFacts(s.ready[p], t);
    forall x | x in s'.threads && x != t && x !in BadThreads(s) ensures ThreadAt(s', x) {
      ThreadOf(s, x);
      assert x in s.ready[p] ==> x in Elements(s.ready[p]) && x in Elements(s'.ready[p]);
    }
  }

  lemma RemoveQueue(s: State, t: Thread, c: Tcb, q: Priority)
    requires BadQueues(s) == iset{} && t in s.threads && Legal(q)
    requires Legal(s.threads[t].priority)
    ensures s.threads[t].priority in s.ready && QueueAt(RemovedAs(s, t, c), q)
    ensures t !in RemovedAs(s, t, c).ready[q]
  {
    var p := s.threads[t].priority;
    Queue(s, p);
    Queue(s, q);
    var s' := RemovedAs(s, t, c);
    if t in s.ready[q] {
      QueueMember(s, q, t);
    }
    WithoutFacts(s.ready[p], t);
    forall x | x in s'.ready[q]
      ensures x != t && x in s.threads && s.threads[x].stat == Ready && s.threads[x].priority == q
    {
      if q == p {
        assert x in Elements(s'.ready[q]) && x in Elements(s.ready[q]);
      }
      QueueMember(s, q, x);
    }
  }

  // The operations

  ghost predicate IsTop(s: State, top: Priority) {
    top in s.group && forall q: Priority :: q in s.group ==> top.w <= q.w
  }

  /** Turning to the first thread of queue top; the current thread goes back to its queue
      if it could have run on. */
  ghost function Switched(s: State, top: Priority, putBack: bool): State
    requires Placed(s) && s.current in s.threads && Legal(top) && top in s.group
    requires putBack ==> s.threads[s.current].stat == Running
  {
    TopThread(s, top);
    var to := s.ready[top][0];
    var s1 := s.(current := to);
    var s2 := if putBack then Enlisted(s1, s.current) else s1;
    RemovedAs(s2, to, s2.threads[to].(stat := Running))
  }

  lemma TopThread(s: State, top: Priority)
    requires Placed(s) && Legal(top) && top in s.group
    ensures top in s.ready && s.ready[top] != [] && s.ready[top][0] in s.threads
    ensures s.threads[s.ready[top][0]].stat == Ready && s.threads[s.ready[top][0]].priority == top
    ensures s.ready[top][0] != s.current && Legal(s.threads[s.ready[top][0]].initPriority)
    ensures s.current in s.threads ==> Legal(s.threads[s.current].priority) && s.threads[s.current].priority in s.ready
  {
    Queue(s, top);
    QueueMember(s, top, s.ready[top][0]);
    ThreadOf(s, s.ready[top][0]);
    if s.current in s.threads {
      ThreadOf(s, s.current);
      Queue(s, s.threads[s.current].priority);
    }
  }

  /** Only the current thread and its successor are affected by the exchange. */
  lemma CurrentMoved(s: State, to: Thread)
    requires Placed(s) && s.current in s.threads && to in s.threads
    ensures BadQueues(s.(current := to)) == iset{} && BadThreads(s.(current := to)) <= {to, s.current}
  {
    var s1 := s.(current := to);
    forall p: Priority | Legal(p) ensures QueueAt(s1, p) {
      Queue(s, p);
      assert Strangers(s1, p) == Strangers(s, p);
    }
    forall x | x in s1.threads && x != to && x != s.current ensures ThreadAt(s1, x) {
      ThreadOf(s, x);
    }
  }

  lemma SwitchPlaced(s: State, top: Priority, putBack: bool)
    requires Placed(s) && s.current in s.threads && Legal(top) && top in s.group
    requires putBack <==> s.threads[s.current].stat == Running
    ensures Placed(Switched(s, top, putBack))
  {
    TopThread(s, top);
    var to := s.ready[top][0];
    ThreadOf(s, s.current);
    var s1 := s.(current := to);
    CurrentMoved(s, to);
    if putBack {
      NotReadyNotQueued(s1, s.current);
      InsertKeeps(s1, s.current);
      var s2 := Enlisted(s1, s.current);
      RemoveKeeps(s2, to, s2.threads[to].(stat := Running));
    } else {
      assert s.current !in BadThreads(s1) by {
        assert ThreadAt(s1, s.current);
      }
      RemoveKeeps(s1, to, s1.threads[to].(stat := Running));
    }
  }

  lemma SwitchKeeps(s: State, top: Priority, putBack: bool)
    requires Placed(s) && s.current in s.threads && Legal(top) && top in s.group
    requires putBack <==> s.threads[s.current].stat == Running
    ensures top in s.ready && s.ready[top] != []
    ensures var s' := Switched(s, top, putBack); var to := s.ready[top][0];
            && Placed(s') && s'.current == to && to in s'.threads && s'.threads[to].stat == Running
            && s'.threads[to].priority == top
            && (forall x :: x in s'.threads && x != to ==>
                  && x in s.threads && s'.threads[x].priority == s.threads[x].priority
                  && (s'.threads[x].stat == Ready ==> s.threads[x].stat == Ready || (putBack && x == s.current)))
  {
    TopThread(s, top);
    SwitchPlaced(s, top, putBack);
  }

  /** rt_schedule, when top is the most urgent ready priority. */
  ghost function Scheduled(s: State, top: Priority): State
    requires Placed(s) && s.current in s.threads
    requires s.group != iset{} ==> Legal(top) && IsTop(s, top)
  {
    if s.lockNest != 0 || s.group == iset{} then s
    else
      var c := s.threads[s.current];
      if c.stat == Running then
        var s' := s.(threads := s.threads[s.current := c.(yielding := false)]);
        TouchKeeps(s, s.current, c.(yielding := false));
        if c.priority.w < top.w || (c.priority == top && !c.yielding) then s' else Switched(s', top, true)
      else Switched(s, top, false)
  }

  /** Changing only flags of a thread. */
  lemma TouchKeeps(s: State, t: Thread, c: Tcb)
    requires Placed(s) && t in s.threads
    requires c.stat == s.threads[t].stat && c.priority == s.threads[t].priority
             && c.initPriority == s.threads[t].initPriority
    ensures Placed(s.(threads := s.threads[t := c]))
  {
    var s' := s.(threads := s.threads[t := c]);
    forall p: Priority | Legal(p) ensures QueueAt(s', p) {
      Queue(s, p);
      forall x | x in s'.ready[p] ensures x !in Strangers(s', p) {
        assert x !in Strangers(s, p);
      }
    }
    forall x | x in s'.threads ensures ThreadAt(s', x) {
      ThreadOf(s, x);
    }
  }

  lemma ScheduleKeeps(s: State, top: Priority)
    requires Placed(s) && s.current in s.threads && (s.group != iset{} ==> Legal(top) && IsTop(s, top))
    ensures Placed(Scheduled(s, top)) && Scheduled(s, top).current in Scheduled(s, top).threads
  {
    if s.lockNest == 0 && s.group != iset{} {
      var c := s.threads[s.current];
      if c.stat == Running {
        var s' := s.(threads := s.threads[s.current := c.(yielding := false)]);
        TouchKeeps(s, s.current, c.(yielding := false));
        if !(c.priority.w < top.w || (c.priority == top && !c.yielding)) {
          SwitchKeeps(s', top, true);
        }
      } else {
        SwitchKeeps(s, top, false);
      }
    }
  }

  /** A ready thread's priority is in the group. */
  lemma ReadyInGroup(s: State, t: Thread)
    requires Placed(s) && t in s.threads && s.threads[t].stat == Ready
    ensures Legal(s.threads[t].priority) && s.threads[t].priority in s.group
  {
    ThreadOf(s, t);
    Queue(s, s.threads[t].priority);
  }

  /** The current thread runs, and t is not ready or no more urgent. */
  ghost predicate RunsAhead(s: State, t: Thread) {
    && s.current in s.threads && s.threads[s.current].stat == Running
    && (t in s.threads && s.threads[t].stat == Ready ==> s.threads[s.current].priority.w <= s.threads[t].priority.w)
  }

  /** A switch leaves the most urgent thread running. */
  lemma SwitchUrgent(s: State, top: Priority, putBack: bool, t: Thread)
    requires Placed(s) && s.current in s.threads && Legal(top) && IsTop(s, top)
    requires putBack <==> s.threads[s.current].stat == Running
    requires putBack ==> top.w <= s.threads[s.current].priority.w
    ensures RunsAhead(Switched(s, top, putBack), t)
  {
    SwitchKeeps(s, top, putBack);
    if t in s.threads && s.threads[t].stat == Ready {
      ReadyInGroup(s, t);
    }
  }

  lemma StoppedCase(s: State, top: Priority, t: Thread)
    requires Placed(s) && s.current in s.threads && Legal(top) && IsTop(s, top)
    requires s.lockNest == 0 && s.threads[s.current].stat != Running
    ensures RunsAhead(Scheduled(s, top), t)
  {
    SwitchUrgent(s, top, false, t);
    assert Scheduled(s, top) == Switched(s, top, false);
  }

  lemma GiveWayCase(s: State, top: Priority, t: Thread)
    requires Placed(s) && s.current in s.threads && Legal(top) && IsTop(s, top)
    requires s.lockNest == 0 && s.threads[s.current].stat == Running
    requires var c := s.threads[s.current]; !(c.priority.w < top.w || (c.priority == top && !c.yielding))
    ensures RunsAhead(Scheduled(s, top), t)
  {
    var c := s.threads[s.current].(yielding := false);
    var s0 := s.(threads := s.threads[s.current := c]);
    TouchKeeps(s, s.current, c);
    SwitchUrgent(s0, top, true, t);
    assert Scheduled(s, top) == Switched(s0, top, true);
  }

  lemma StayCase(s: State, top: Priority, t: Thread)
    requires Placed(s) && s.current in s.threads && (s.group != iset{} ==> Legal(top) && IsTop(s, top))
    requires s.threads[s.current].stat == Running
    requires var c := s.threads[s.current]; s.group != iset{} ==>
             c.priority.w < top.w || (c.priority == top && !c.yielding)
    ensures RunsAhead(Scheduled(s, top), t)
  {
    if t in s.threads && s.threads[t].stat == Ready {
      ReadyInGroup(s, t);
    }
  }

  /** With the scheduler unlocked and something to run, the current thread runs after a
      schedule and no ready thread is more urgent. */
  lemma MostUrgentRuns(s: State, top: Priority, t: Thread)
    requires Placed(s) && s.current in s.threads && (s.group != iset{} ==> Legal(top) && IsTop(s, top))
    requires s.lockNest == 0 && (s.group != iset{} || s.threads[s.current].stat == Running)
    ensures RunsAhead(Scheduled(s, top), t)
  {
    var c := s.threads[s.current];
    if c.stat != Running {
      StoppedCase(s, top, t);
    } else if s.group != iset{} && !(c.priority.w < top.w || (c.priority == top && !c.yielding)) {
      GiveWayCase(s, top, t);
    } else {
      StayCase(s, top, t);
    }
  }

  // Yielding

  /** rt_thread_yield. */
  ghost function Yielded(s: State, top: Priority): State
    requires Placed(s) && s.current in s.threads && (s.group != iset{} ==> Legal(top) && IsTop(s, top))
  {
    var c := s.threads[s.current].(yielding := true);
    TouchKeeps(s, s.current, c);
    Scheduled(s.(threads := s.threads[s.current := c]), top)
  }

  /** The current thread runs at the top priority p, and others are ready there too. */
  ghost predicate Sharing(s: State, p: Priority) {
    && Placed(s) && s.current in s.threads && s.threads[s.current].stat == Running && s.threads[s.current].priority == p
    && s.lockNest == 0 && Legal(p) && p in s.ready && IsTop(s, p)
  }

  /** The running thread and the ones in line behind it. */
  ghost function Line(s: State, p: Priority): seq<Thread>
    requires s.current >= 0 && p in s.ready
  {
    [s.current] + s.ready[p]
  }

  function Rotated(line: seq<Thread>, k: nat): seq<Thread>
    requires k <= |line|
  {
    line[k..] + line[..k]
  }

  lemma YieldRotates(s: State, p: Priority)
    requires Sharing(s, p)
    ensures var s' := Yielded(s, p); Sharing(s', p) && Line(s', p) == Rotated(Line(s, p), 1)
  {
    var c := s.threads[s.current].(yielding := true);
    TouchKeeps(s, s.current, c);
    var s1 := s.(threads := s.threads[s.current := c]);
    TouchKeeps(s1, s.current, c.(yielding := false));
    var s2 := s1.(threads := s1.threads[s.current := c.(yielding := false)]);
    SwitchKeeps(s2, p, true);
    TopThread(s2, p);
    var q, s' := s.ready[p], Yielded(s, p);
    assert s' == Switched(s2, p, true);
    assert s'.ready[p] == Without(q + [s.current], q[0]);
    assert (q + [s.current])[1..] == q[1..] + [s.current];
    Queue(s', p);
    assert s'.group == s.group;
  }

  /** k yields later. */
  ghost function Yields(s: State, p: Priority, k: nat): State
    requires Sharing(s, p)
    ensures Sharing(Yields(s, p, k), p)
  {
    if k == 0 then s else YieldRotates(Yields(s, p, k - 1), p); Yielded(Yields(s, p, k - 1), p)
  }

  /** With n threads sharing the top priority, n yields let each of them run once, in the
      order of their queue, and restore the order they started in. */
  lemma {:induction false} YieldsRotate(s: State, p: Priority, k: nat)
    requires Sharing(s, p) && k <= |Line(s, p)|
    ensures Line(Yields(s, p, k), p) == Rotated(Line(s, p), k)
  {
    if k > 0 {
      YieldsRotate(s, p, k - 1);
      YieldRotates(Yields(s, p, k - 1), p);
      RotatedTwice(Line(s, p), k - 1);
    } else {
      assert Rotated(Line(s, p), 0) == Line(s, p);
    }
  }

  lemma RotatedTwice(line: seq<Thread>, k: nat)
    requires k < |line|
    ensures Rotated(Rotated(line, k), 1) == Rotated(line, k + 1)
  {
  }

  lemma LineDistinct(s: State, p: Priority)
    requires Sharing(s, p)
    ensures Distinct(Line(s, p))
  {
    Queue(s, p);
    if s.current in s.ready[p] {
      QueueMember(s, p, s.current);
    }
    assert Line(s, p)[1..] == s.ready[p];
  }

  /** So the k-th of them runs after k yields, nobody twice, and after n yields all is as before. */
  lemma EachRunsOnce(s: State, p: Priority, k: nat)
    requires Sharing(s, p) && k <= |Line(s, p)|
    ensures Distinct(Line(s, p))
    ensures k < |Line(s, p)| ==> Yields(s, p, k).current == Line(s, p)[k]
    ensures k == |Line(s, p)| ==> Yields(s, p, k).current == s.current && Yields(s, p, k).ready[p] == s.ready[p]
  {
    LineDistinct(s, p);
    YieldsRotate(s, p, k);
    var line, now := Line(s, p), Yields(s, p, k);
    assert Line(now, p)[0] == now.current && Line(now, p)[1..] == now.ready[p];
    if k == |line| {
      assert Rotated(line, k) == line && line[1..] == s.ready[p];
    }
  }

  /** A yield with nobody of the same priority ready changes nothing. */
  lemma YieldAlone(s: State, top: Priority)
    requires Placed(s) && s.current in s.threads && s.threads[s.current].stat == Running && s.lockNest == 0
    requires s.group != iset{} && Legal(top) && IsTop(s, top) && s.threads[s.current].priority.w < top.w
    ensures Yielded(s, top).current == s.current && Yielded(s, top).ready == s.ready
  {
  }

  // The other operations

  /** rt_thread_suspend. */
  ghost function Stopped(s: State, t: Thread): State
    requires t in s.threads && s.threads[t].priority in s.ready
  {
    var c := s.threads[t];
    if c.stat in {Ready, Running} then RemovedAs(s, t, c.(stat := Suspended)) else s
  }

  lemma StopKeeps(s: State, t: Thread)
    requires Placed(s) && t in s.threads
    ensures s.threads[t].priority in s.ready && Placed(Stopped(s, t))
  {
    ThreadOf(s, t);
    Queue(s, s.threads[t].priority);
    RemoveKeeps(s, t, s.threads[t].(stat := Suspended));
  }

  /** rt_thread_resume. */
  ghost function Resumed(s: State, t: Thread): State
    requires t in s.threads && s.threads[t].priority in s.ready
  {
    if s.threads[t].stat == Suspended then Enlisted(s, t) else s
  }

  lemma ResumeKeeps(s: State, t: Thread)
    requires Placed(s) && t in s.threads
    ensures s.threads[t].priority in s.ready && Placed(Resumed(s, t))
  {
    ThreadOf(s, t);
    Queue(s, s.threads[t].priority);
    if s.threads[t].stat == Suspended {
      NotReadyNotQueued(s, t);
      InsertKeeps(s, t);
    }
  }

  /** rt_thread_control with a new priority: a ready thread moves to the end of the queue of p. */
  ghost function Changed(s: State, t: Thread, p: Priority): State
    requires t in s.threads && s.threads[t].priority in s.ready && p in s.ready
  {
    var c := s.threads[t].(priority := p);
    if c.stat == Ready then Enlisted(RemovedAs(s, t, c), t) else s.(threads := s.threads[t := c])
  }

  lemma ChangeKeeps(s: State, t: Thread, p: Priority)
    requires Placed(s) && t in s.threads && Legal(p)
    ensures s.threads[t].priority in s.ready && p in s.ready && Placed(Changed(s, t, p))
  {
    ThreadOf(s, t);
    Queue(s, s.threads[t].priority);
    Queue(s, p);
    var c := s.threads[t].(priority := p);
    if c.stat == Ready {
      RemoveKeeps(s, t, c);
      var s1 := RemovedAs(s, t, c);
      InsertKeeps(s1, t);
      assert BadThreads(Enlisted(s1, t)) <= BadThreads(s1) - {t};
    } else {
      RedressKeeps(s, t, c);
    }
  }

  /** A thread in no queue changes its description. */
  lemma RedressKeeps(s: State, t: Thread, c: Tcb)
    requires Placed(s) && (t in s.threads ==> s.threads[t].stat != Ready)
    requires c.stat != Ready && (c.stat == Running ==> t == s.current) && (t == s.current ==> c.stat != Init)
    requires Legal(c.priority) && Legal(c.initPriority)
    ensures Placed(s.(threads := s.threads[t := c]))
  {
    var s' := s.(threads := s.threads[t := c]);
    forall q: Priority | Legal(q) ensures QueueAt(s', q) {
      Queue(s, q);
      forall x | x in s'.ready[q] ensures x !in Strangers(s', q) {
        QueueMember(s, q, x);
      }
    }
    forall x | x in s'.threads ensures ThreadAt(s', x) {
      if x != t {
        ThreadOf(s, x);
      }
    }
  }

  /** rt_system_scheduler_start. */
  ghost function Begun(s: State, top: Priority): State
    requires top in s.ready && s.ready[top] != [] && s.ready[top][0] in s.threads
             && s.threads[s.ready[top][0]].priority == top
  {
    var to := s.ready[top][0];
    RemovedAs(s.(current := to), to, s.threads[to].(stat := Running, yielding := false))
  }

  lemma BeginKeeps(s: State, top: Priority)
    requires Placed(s) && s.current == NOBODY && Legal(top) && top in s.group
    ensures top in s.ready && s.ready[top] != [] && s.ready[top][0] in s.threads
            && s.threads[s.ready[top][0]].priority == top
    ensures Placed(Begun(s, top)) && Begun(s, top).current == s.ready[top][0]
  {
    TopThread(s, top);
    var to := s.ready[top][0];
    var s1 := s.(current := to);
    forall p: Priority | Legal(p) ensures QueueAt(s1, p) {
      Queue(s, p);
      assert Strangers(s1, p) == Strangers(s, p);
    }
    forall x | x in s1.threads && x != to ensures ThreadAt(s1, x) {
      ThreadOf(s, x);
    }
    RemoveKeeps(s1, to, s1.threads[to].(stat := Running, yielding := false));
  }

  // What an operation changes

  /** From s to s' only thread t changes: it is now c, and stands last in the queue of its priority
      if it is ready, and in none if it is not. Everybody else keeps state and place. */
  ghost predicate OnlyMoves(s: State, s': State, t: Thread, c: Tcb) {
    && s'.threads == s.threads[t := c] && s'.current == s.current && s'.lockNest == s.lockNest
    && forall q: Priority :: Legal(q) ==>
         q in s.ready && q in s'.ready
         && s'.ready[q] == Without(s.ready[q], t) + if c.stat == Ready && c.priority == q then [t] else []
  }

  lemma AbsentFrom(s: State, t: Thread, q: Priority)
    requires BadQueues(s) == iset{} && t in s.threads && Legal(q)
    requires s.threads[t].stat != Ready || s.threads[t].priority != q
    ensures q in s.ready && t !in s.ready[q] && Without(s.ready[q], t) == s.ready[q]
  {
    Queue(s, q);
    if t in s.ready[q] {
      QueueMember(s, q, t);
    }
    NotWithout(s.ready[q], t);
  }

  /** Going to another queue, or to the end of the same one. */
  lemma MovedQueue(s: State, t: Thread, c: Tcb, q: Priority)
    requires Placed(s) && t in s.threads && s.threads[t].stat == Ready && c.stat == Ready
    requires Legal(q) && Legal(c.priority)
    ensures s.threads[t].priority in s.ready && c.priority in s.ready && q in s.ready
    ensures var s' := Enlisted(RemovedAs(s, t, c), t);
            q in s'.ready && s'.ready[q] == Without(s.ready[q], t) + if c.priority == q then [t] else []
  {
    ThreadOf(s, t);
    Queue(s, s.threads[t].priority);
    Queue(s, c.priority);
    Queue(s, q);
    if q != s.threads[t].priority {
      AbsentFrom(s, t, q);
    }
  }

  /** A new priority is the thread's, and a ready thread goes to the end of its queue. */
  lemma ChangeMoves(s: State, t: Thread, p: Priority)
    requires Placed(s) && t in s.threads && Legal(p)
    ensures s.threads[t].priority in s.ready && p in s.ready
    ensures OnlyMoves(s, Changed(s, t, p), t, s.threads[t].(priority := p))
  {
    ChangeKeeps(s, t, p);
    var c, s' := s.threads[t].(priority := p), Changed(s, t, p);
    ThreadOf(s, t);
    forall q: Priority | Legal(q)
      ensures q in s.ready && q in s'.ready
              && s'.ready[q] == Without(s.ready[q], t) + if c.stat == Ready && c.priority == q then [t] else []
    {
      if c.stat == Ready {
        MovedQueue(s, t, c, q);
      } else {
        AbsentFrom(s, t, q);
      }
    }
    assert c.stat == Ready ==> s'.threads[t] == c;
  }

  /** A thread in no queue joins one, or takes over. */
  lemma EnlistMoves(s: State, t: Thread)
    requires BadQueues(s) == iset{} && t in s.threads && s.threads[t].stat != Ready && Legal(s.threads[t].priority)
    ensures s.threads[t].priority in s.ready
    ensures OnlyMoves(s, Enlisted(s, t), t, s.threads[t].(stat := if t == s.current then Running else Ready))
  {
    Queue(s, s.threads[t].priority);
    forall q: Priority | Legal(q) ensures q in s.ready && Without(s.ready[q], t) == s.ready[q] {
      AbsentFrom(s, t, q);
    }
  }

  lemma StopMoves(s: State, t: Thread)
    requires Placed(s) && t in s.threads
    ensures s.threads[t].priority in s.ready
    ensures if s.threads[t].stat in {Ready, Running} then
              OnlyMoves(s, Stopped(s, t), t, s.threads[t].(stat := Suspended))
            else Stopped(s, t) == s
  {
    StopKeeps(s, t);
    forall q: Priority | Legal(q)
      ensures q in s.ready && (q != s.threads[t].priority ==> Without(s.ready[q], t) == s.ready[q])
    {
      Queue(s, q);
      if q != s.threads[t].priority {
        AbsentFrom(s, t, q);
      }
    }
  }

  lemma ResumeMoves(s: State, t: Thread)
    requires Placed(s) && t in s.threads
    ensures s.threads[t].priority in s.ready
    ensures if s.threads[t].stat == Suspended then
              OnlyMoves(s, Resumed(s, t), t, s.threads[t].(stat := if t == s.current then Running else Ready))
            else Resumed(s, t) == s
  {
    ThreadOf(s, t);
    Queue(s, s.threads[t].priority);
    if s.threads[t].stat == Suspended {
      EnlistMoves(s, t);
    }
  }

  // Runs

  /** s' is s after rt_schedule. */
  ghost predicate Reschedules(s: State, s': State) {
    Placed(s) &&
    if s.current !in s.threads then s' == s
    else exists top: Priority :: (s.group != iset{} ==> Legal(top) && IsTop(s, top)) && s' == Scheduled(s, top)
  }

  lemma RescheduleKeeps(s: State, s': State)
    requires Reschedules(s, s')
    ensures Placed(s')
    ensures s.current in s.threads && s.lockNest == 0 && (s.group != iset{} || s.threads[s.current].stat == Running) ==>
              forall t :: RunsAhead(s', t)
  {
    if s.current in s.threads {
      var top: Priority :| (s.group != iset{} ==> Legal(top) && IsTop(s, top)) && s' == Scheduled(s, top);
      ScheduleKeeps(s, top);
      if s.lockNest == 0 && (s.group != iset{} || s.threads[s.current].stat == Running) {
        forall t ensures RunsAhead(s', t) {
          MostUrgentRuns(s, top, t);
        }
      }
    }
  }

  /** What may happen next. */
  datatype Command =
    | Creates(t: Thread, p: Priority)
    | Starts(t: Thread)
    | Boots
    | Suspends(t: Thread)
    | Resumes(t: Thread)
    | Expires(t: Thread)
    | Changes(t: Thread, p: Priority)
    | GivesWay
    | Locks
    | Unlocks
    | Calls

  /** A thread that is started (rt_thread_startup), before the scheduler is called. */
  ghost function Readied(s: State, t: Thread): State
    requires t in s.threads && s.threads[t].initPriority in s.ready
  {
    var c := s.threads[t].(priority := s.threads[t].initPriority, stat := Suspended, yielding := false);
    Enlisted(s.(threads := s.threads[t := c]), t)
  }

  lemma ReadiedKeeps(s: State, t: Thread)
    requires Placed(s) && t in s.threads && s.threads[t].stat == Init
    ensures s.threads[t].initPriority in s.ready && Placed(Readied(s, t))
  {
    ThreadOf(s, t);
    Queue(s, s.threads[t].initPriority);
    var c := s.threads[t].(priority := s.threads[t].initPriority, stat := Suspended, yielding := false);
    RedressKeeps(s, t, c);
    ResumeKeeps(s.(threads := s.threads[t := c]), t);
  }

  /** The current thread makes way for thread to: back at the end of its queue, if it could have run on. */
  ghost predicate Exchanges(s: State, s': State, to: Thread, putBack: bool)
    requires s.current in s.threads && to in s.threads
  {
    var from: Thread, c := s.current, s.threads[s.current];
    && s'.threads == s.threads[from := if putBack then c.(stat := Ready) else c][to := s.threads[to].(stat := Running)]
    && s'.current == to && s'.lockNest == s.lockNest
    && forall q: Priority :: Legal(q) ==>
         q in s.ready && q in s'.ready
         && s'.ready[q] == Without(s.ready[q] + if putBack && c.priority == q then [from] else [], to)
  }

  lemma SwitchMoves(s: State, top: Priority, putBack: bool)
    requires Placed(s) && s.current in s.threads && Legal(top) && top in s.group
    requires putBack ==> s.threads[s.current].stat == Running
    ensures top in s.ready && s.ready[top] != [] && s.ready[top][0] in s.threads
    ensures Exchanges(s, Switched(s, top, putBack), s.ready[top][0], putBack)
  {
    TopThread(s, top);
    var from: Thread, to, s' := s.current, s.ready[top][0], Switched(s, top, putBack);
    forall q: Priority | Legal(q)
      ensures q in s.ready && q in s'.ready
              && s'.ready[q] ==
                 Without(s.ready[q] + if putBack && s.threads[from].priority == q then [from] else [], to)
    {
      Queue(s, q);
      var longer := s.ready[q] + if putBack && s.threads[from].priority == q then [from] else [];
      if q != top {
        AbsentFrom(s, to, q);
        NotWithout(longer, to);
      }
    }
  }

  /** The current thread with its request to yield dropped, if it can run on. */
  ghost function Unasked(s: State): State
    requires s.current in s.threads
  {
    var c := s.threads[s.current];
    if c.stat == Running then s.(threads := s.threads[s.current := c.(yielding := false)]) else s
  }

  ghost predicate RunsOn(c: Tcb, top: Priority) {
    c.stat == Running && (c.priority.w < top.w || (c.priority.w == top.w && !c.yielding))
  }

  lemma WayMade(s: State, top: Priority)
    requires Placed(s) && s.current in s.threads && Legal(top) && IsTop(s, top) && s.lockNest == 0
    requires !RunsOn(s.threads[s.current], top)
    ensures top in s.ready && s.ready[top] != [] && s.ready[top][0] in s.threads
    ensures Exchanges(Unasked(s), Scheduled(s, top), s.ready[top][0], s.threads[s.current].stat == Running)
  {
    var c := s.threads[s.current];
    TopThread(s, top);
    if c.stat == Running {
      TouchKeeps(s, s.current, c.(yielding := false));
      SwitchMoves(Unasked(s), top, true);
      assert Scheduled(s, top) == Switched(Unasked(s), top, true);
    } else {
      SwitchMoves(s, top, false);
      assert Scheduled(s, top) == Switched(s, top, false);
    }
  }

  /** With nothing to run or the scheduler locked nothing happens. A running thread goes on unless
      a more urgent one is ready, or one as urgent and it asked to yield; then, or if it cannot run,
      it makes way for the first of the most urgent. */
  lemma ScheduleMoves(s: State, top: Priority)
    requires Placed(s) && s.current in s.threads && (s.group != iset{} ==> Legal(top) && IsTop(s, top))
    ensures s.lockNest != 0 || s.group == iset{} ==> Scheduled(s, top) == s
    ensures s.lockNest == 0 && s.group != iset{} ==>
              && top in s.ready && s.ready[top] != [] && s.ready[top][0] in s.threads
              && if RunsOn(s.threads[s.current], top) then Scheduled(s, top) == Unasked(s)
                 else Exchanges(Unasked(s), Scheduled(s, top), s.ready[top][0], s.threads[s.current].stat == Running)
  {
    if s.lockNest == 0 && s.group != iset{} {
      TopThread(s, top);
      if !RunsOn(s.threads[s.current], top) {
        WayMade(s, top);
      }
    }
  }

  lemma LockKept(s: State, top: Priority)
    requires Placed(s) && s.current in s.threads && (s.group != iset{} ==> Legal(top) && IsTop(s, top))
    ensures Scheduled(s, top).lockNest == s.lockNest
  {
    ScheduleMoves(s, top);
  }

  /** The first thread of the most urgent queue becomes the current one and leaves its queue. */
  lemma BeginMoves(s: State, top: Priority)
    requires Placed(s) && s.current == NOBODY && Legal(top) && top in s.group
    ensures top in s.ready && s.ready[top] != [] && s.ready[top][0] in s.threads
            && s.threads[s.ready[top][0]].priority == top
    ensures var to := s.ready[top][0];
            OnlyMoves(s.(current := to), Begun(s, top), to, s.threads[to].(stat := Running, yielding := false))
  {
    TopThread(s, top);
    var to := s.ready[top][0];
    forall q: Priority | Legal(q)
      ensures q in s.ready && (q != top ==> Without(s.ready[q], to) == s.ready[q])
    {
      Queue(s, q);
      if q != top {
        AbsentFrom(s, to, q);
      }
    }
  }

  /** A started thread has its initial priority and is ready, behind its equals. */
  lemma ReadiedMoves(s: State, t: Thread)
    requires Placed(s) && t in s.threads && s.threads[t].stat == Init
    ensures s.threads[t].initPriority in s.ready
    ensures OnlyMoves(s, Readied(s, t), t, Tcb(Ready, false, s.threads[t].initPriority, s.threads[t].initPriority))
  {
    ReadiedKeeps(s, t);
    ThreadOf(s, t);
    var c := s.threads[t].(priority := s.threads[t].initPriority, stat := Suspended, yielding := false);
    RedressKeeps(s, t, c);
    EnlistMoves(s.(threads := s.threads[t := c]), t);
  }

  ghost function Unlocked(s: State): State {
    s.(lockNest := if s.lockNest > 1 then s.lockNest - 1 else 0)
  }

  /** One operation: what it does to thread t if it applies, and nothing otherwise. */
  ghost predicate Step(s: State, s': State, c: Command) {
    Placed(s) &&
    match c
    case Creates(t, p) =>
      s' == if t !in s.threads && Legal(p) then s.(threads := s.threads[t := Tcb(Init, false, p, p)]) else s
    case Starts(t) =>
      if t in s.threads && s.threads[t].stat == Init then
        ReadiedKeeps(s, t);
        Reschedules(Readied(s, t), s')
      else s' == s
    case Boots =>
      if s.current == NOBODY && s.group != iset{} then
        exists top: Priority :: Legal(top) && IsTop(s, top) && (BeginKeeps(s, top); s' == Begun(s, top))
      else s' == s
    case Suspends(t) => if t in s.threads then StopKeeps(s, t); s' == Stopped(s, t) else s' == s
    case Resumes(t) => if t in s.threads then ResumeKeeps(s, t); s' == Resumed(s, t) else s' == s
    case Expires(t) =>
      if t in s.threads && s.threads[t].stat == Suspended then ResumeKeeps(s, t); Reschedules(Resumed(s, t), s')
          else s' == s
    case Changes(t, p) =>
      if t in s.threads && Legal(p) then ChangeKeeps(s, t, p); s' == Changed(s, t, p) else s' == s
    case GivesWay =>
      if s.current in s.threads then
        exists top: Priority :: (s.group != iset{} ==> Legal(top) && IsTop(s, top)) && s' == Yielded(s, top)
      else s' == s
    case Locks => s' == s.(lockNest := s.lockNest + 1)
    case Unlocks =>
      RelockKeeps(s, Unlocked(s).lockNest);
      if s.lockNest <= 1 then Reschedules(Unlocked(s), s') else s' == Unlocked(s)
    case Calls => Reschedules(s, s')
  }

  lemma StepKeeps(s: State, s': State, c: Command)
    requires Step(s, s', c)
    ensures Placed(s')
  {
    match c {
      case Creates(t, p) =>
        if t !in s.threads && Legal(p) {
          RedressKeeps(s, t, Tcb(Init, false, p, p));
        }
      case Starts(t) =>
        if t in s.threads && s.threads[t].stat == Init {
          ReadiedKeeps(s, t);
          RescheduleKeeps(Readied(s, t), s');
        }
      case Boots =>
        if s.current == NOBODY && s.group != iset{} {
          var top: Priority :| Legal(top) && IsTop(s, top) && (BeginKeeps(s, top); s' == Begun(s, top));
          BeginKeeps(s, top);
        }
      case Suspends(t) => if t in s.threads { StopKeeps(s, t); }
      case Resumes(t) => if t in s.threads { ResumeKeeps(s, t); }
      case Expires(t) =>
        if t in s.threads && s.threads[t].stat == Suspended {
          ResumeKeeps(s, t);
          RescheduleKeeps(Resumed(s, t), s');
        }
      case Changes(t, p) => if t in s.threads && Legal(p) { ChangeKeeps(s, t, p); }
      case GivesWay =>
        if s.current in s.threads {
          var top: Priority :| (s.group != iset{} ==> Legal(top) && IsTop(s, top)) && s' == Yielded(s, top);
          var c := s.threads[s.current].(yielding := true);
          TouchKeeps(s, s.current, c);
          ScheduleKeeps(s.(threads := s.threads[s.current := c]), top);
        }
      case Locks => RelockKeeps(s, s.lockNest + 1);
      case Unlocks =>
        RelockKeeps(s, Unlocked(s).lockNest);
        if s.lockNest <= 1 {
          RescheduleKeeps(Unlocked(s), s');
        }
      case Calls => RescheduleKeeps(s, s');
    }
  }

  /** Before anything happens. */
  ghost predicate IsNew(s: State) {
    && s.group == iset{} && s.current == NOBODY && s.threads == map[] && s.lockNest == 0
    && forall p: Priority :: Legal(p) ==> p in s.ready && s.ready[p] == []
  }

  lemma NewIsPlaced(s: State)
    requires IsNew(s)
    ensures Placed(s)
  {
    assert forall p: Priority :: Legal(p) ==> QueueAt(s, p);
  }

  /** What an operation may lead to. */
  ghost function Outcomes(s: State, c: Command): iset<State> {
    iset s': State | Step(s, s', c)
  }

  /** The commands may lead to s. */
  ghost predicate Reachable(schedule: seq<Command>, s: State) {
    if schedule == [] then IsNew(s)
    else
      var front, c := schedule[..|schedule| - 1], schedule[|schedule| - 1];
      exists b: State :: Reachable(front, b) && s in Outcomes(b, c)
  }

  lemma OneMoreStep(schedule: seq<Command>, c: Command, b: State, s: State)
    requires Reachable(schedule, b) && s in Outcomes(b, c)
    ensures Reachable(schedule + [c], s)
  {
    assert (schedule + [c])[..|schedule|] == schedule;
  }

  /** The placement invariant holds in every state any run leads to. */
  lemma {:induction false} AlwaysPlaced(schedule: seq<Command>, s: State)
    requires Reachable(schedule, s)
    ensures Placed(s)
  {
    if schedule == [] {
      NewIsPlaced(s);
    } else {
      var front, c := schedule[..|schedule| - 1], schedule[|schedule| - 1];
      var b: State :| Reachable(front, b) && s in Outcomes(b, c);
      StepKeeps(b, s, c);
    }
  }

  /** In every run, once the scheduler was called unlocked with something to run, the current
      thread runs and no ready thread is more urgent. */
  lemma AlwaysUrgent(schedule: seq<Command>, s: State, s': State, t: Thread)
    requires Reachable(schedule, s) && s' in Outcomes(s, Calls) && s.current in s.threads && s.lockNest == 0
    requires s.group != iset{} || s.threads[s.current].stat == Running
    ensures RunsAhead(s', t)
  {
    RescheduleKeeps(s, s');
  }

  // The scheduler itself

  /** Started threads whose number_mask is not the bit of their priority. */
  ghost function Unmasked(threads: map<Thread, Tcb>, masks: map<Thread, Word>): set<Thread> {
    set t | t in threads && !(&& t in masks && Legal(threads[t].priority)
                              && (threads[t].stat != Init ==> masks[t] == Mask(threads[t].priority.w)))
  }

  lemma MaskOf(threads: map<Thread, Tcb>, masks: map<Thread, Word>, t: Thread)
    requires Unmasked(threads, masks) == {} && t in threads
    ensures t in masks && Legal(threads[t].priority)
    ensures threads[t].stat != Init ==> masks[t] == Mask(threads[t].priority.w)
  {
    assert t !in Unmasked(threads, masks);
  }

  lemma Remasked(threads: map<Thread, Tcb>, masks: map<Thread, Word>, t: Thread, c: Tcb, m: Word)
    requires Unmasked(threads, masks) == {} && Legal(c.priority) && (c.stat != Init ==> m == Mask(c.priority.w))
    ensures Unmasked(threads[t := c], masks[t := m]) == {}
  {
    var threads', masks' := threads[t := c], masks[t := m];
    forall x | x in threads' ensures x !in Unmasked(threads', masks') {
      if x != t {
        MaskOf(threads, masks, x);
      }
    }
  }

  lemma SwitchMasks(s: State, top: Priority, putBack: bool, masks: map<Thread, Word>)
    requires Placed(s) && s.current in s.threads && Legal(top) && top in s.group
    requires putBack ==> s.threads[s.current].stat == Running
    requires Unmasked(s.threads, masks) == {}
    ensures Unmasked(Switched(s, top, putBack).threads, masks) == {}
  {
    TopThread(s, top);
    var to, from: Thread := s.ready[top][0], s.current;
    ThreadOf(s, from);
    MaskOf(s.threads, masks, from);
    MaskOf(s.threads, masks, to);
    var threads := if putBack then s.threads[from := s.threads[from].(stat := Ready)] else s.threads;
    assert masks[from := masks[from]] == masks && masks[to := masks[to]] == masks;
    Remasked(s.threads, masks, from, s.threads[from].(stat := Ready), masks[from]);
    Remasked(threads, masks, to, threads[to].(stat := Running), masks[to]);
  }

  /** The lookup gives the most urgent ready priority. */
  lemma Topmost(s: State, g: Word)
    requires s.group == Bits(g)
    ensures g == 0 <==> s.group == iset{}
    ensures g != 0 ==> Legal(Priority(Ffs(g) - 1)) && IsTop(s, Priority(Ffs(g) - 1))
  {
    GroupEmpty(g);
    if g != 0 {
      FfsIsMostUrgent(g);
      FfsIsMinimum(g);
    }
  }

  lemma GroupEmpty(g: Word)
    ensures g == 0 <==> Bits(g) == iset{}
  {
    BitsZero();
    if g != 0 {
      FfsIsMostUrgent(g);
    }
  }

  lemma RelockKeeps(s: State, n: nat)
    requires Placed(s)
    ensures Placed(s.(lockNest := n))
  {
    var s' := s.(lockNest := n);
    forall p: Priority | Legal(p) ensures QueueAt(s', p) {
      Queue(s, p);
      assert Strangers(s', p) == Strangers(s, p);
    }
    forall x | x in s'.threads ensures ThreadAt(s', x) {
      ThreadOf(s, x);
    }
  }

  lemma NextWord(p: Word, offset: Word)
    requires offset < PRIORITY_MAX
    ensures p < offset + 1 <==> p < offset || p == offset
    ensures offset + 1 <= PRIORITY_MAX && PRIORITY_MAX - (offset + 1) < PRIORITY_MAX - offset
  {
  }

  class Kernel {
    var ready: map<Priority, seq<Thread>>
    var group: Word
    var current: int
    var threads: map<Thread, Tcb>
    var masks: map<Thread, Word>
    var lockNest: nat

    ghost function Now(): State
      reads this
    {
      State(ready, Bits(group), current, threads, lockNest)
    }

    ghost predicate Valid()
      reads this
    {
      Placed(Now()) && Unmasked(threads, masks) == {}
    }

    /** rt_system_scheduler_init. */
    constructor ()
      ensures Valid() && IsNew(Now())
    {
      ready := map[];
      group, current, lockNest := 0, NOBODY, 0;
      threads, masks := map[], map[];
      new;
      var offset: Word := 0;
      while offset < PRIORITY_MAX
        invariant offset <= PRIORITY_MAX
        invariant forall p: Priority :: p.w < offset ==> p in ready && ready[p] == []
        invariant group == 0 && current == NOBODY && lockNest == 0 && threads == map[] && masks == map[]
        decreases PRIORITY_MAX - offset
      {
        forall p: Priority ensures p.w < offset + 1 <==> p.w < offset || p == Priority(offset) {
          NextWord(p.w, offset);
        }
        NextWord(0, offset);
        ready := ready[Priority(offset) := []];
        offset := offset + 1;
      }
      BitsZero();
    }

    /** What holds in every reachable state: bit p of the group says whether queue p is
        empty; a ready thread is in the queue of its priority, once, and in no other; the
        current thread is in none; only it runs; and masks match priorities. */
    lemma Placement(p: Priority, t: Thread)
      requires Valid() && Legal(p) && t in threads
      ensures p in ready && (HasBit(group, p.w) <==> ready[p] != []) && Distinct(ready[p])
      ensures t in ready[p] <==> threads[t].stat == Ready && threads[t].priority == p
      ensures t == current ==> t !in ready[p]
      ensures threads[t].stat == Running ==> t == current
      ensures t in masks && (threads[t].stat != Init ==> masks[t] == Mask(p.w) || threads[t].priority != p)
    {
      Queue(Now(), p);
      ThreadOf(Now(), t);
      MaskOf(threads, masks, t);
      assert p in Bits(group) <==> InGroup(group, p);
      if t in ready[p] {
        QueueMember(Now(), p, t);
      }
    }

    /** rt_schedule_insert_thread. */
    method InsertThread(t: Thread)
      requires t in threads && threads[t].priority in ready && Legal(threads[t].priority)
      requires t in masks && masks[t] == Mask(threads[t].priority.w)
      modifies this`ready, this`group, this`threads
      ensures Now() == Enlisted(old(Now()), t)
    {
      if t == current {
        threads := threads[t := threads[t].(stat := Running)];
        return;
      }
      threads := threads[t := threads[t].(stat := Ready)];
      var p := threads[t].priority;
      ready := ready[p := ready[p] + [t]];
      BitsWith(group, p);
      group := With(group, masks[t]);
    }

    /** rt_schedule_remove_thread; the caller sets the thread's new state. */
    method RemoveThread(t: Thread)
      requires t in threads && threads[t].priority in ready && Legal(threads[t].priority)
      requires t in masks && masks[t] == Mask(threads[t].priority.w)
      modifies this`ready, this`group
      ensures Now() == RemovedAs(old(Now()), t, threads[t])
    {
      ghost var g := Bits(group);
      var p := threads[t].priority;
      var rest := Without(ready[p], t);
      ready := ready[p := rest];
      if rest == [] {
        BitsLess(group, p);
        group := Less(group, masks[t]);
      }
      assert Bits(group) == if rest == [] then g - iset{p} else g;
    }

    /** _get_highest_priority_thread. */
    method GetHighest() returns (to: Thread, top: Priority)
      requires Placed(Now()) && group != 0
      ensures Legal(top) && IsTop(Now(), top) && top in ready && ready[top] != [] && to == ready[top][0]
      ensures top == Priority(Ffs(group) - 1)
    {
      Topmost(Now(), group);
      top := Priority(Ffs(group) - 1);
      TopThread(Now(), top);
      to := ready[top][0];
    }

    /** The part of rt_schedule that changes threads. */
    method Switch(to: Thread, top: Priority, putBack: bool)
      requires Valid() && current in threads && Legal(top) && top in Bits(group) && top in ready && ready[top] != []
      requires to == ready[top][0] && (putBack <==> threads[current].stat == Running)
      modifies this`ready, this`group, this`current, this`threads
      ensures Valid() && Now() == Switched(old(Now()), top, putBack) && current in threads
    {
      ghost var s := Now();
      TopThread(s, top);
      SwitchKeeps(s, top, putBack);
      SwitchMasks(s, top, putBack, masks);
      ThreadOf(s, current);
      MaskOf(threads, masks, current);
      MaskOf(threads, masks, to);
      var from: Thread := current;
      SwitchedTo(s.(current := to), top, from, putBack);
      current := to;
      if putBack {
        InsertThread(from);
      }
      RemoveThread(to);
      threads := threads[to := threads[to].(stat := Running)];
    }

    /** rt_schedule. */
    method Schedule() returns (ghost top: Priority)
      requires Valid() && current in threads
      modifies this`ready, this`group, this`current, this`threads
      ensures old(Now()).group != iset{} ==> Legal(top) && IsTop(old(Now()), top)
      ensures Placed(old(Now())) && Now() == Scheduled(old(Now()), top)
      ensures Valid() && current in threads
    {
      Topmost(Now(), group);
      top := Priority(Ffs(group) - 1);
      if lockNest != 0 || group == 0 {
        return;
      }
      var to, highest := GetHighest();
      if threads[current].stat != Running {
        Switch(to, highest, false);
        return;
      }
      Contest(to, highest);
    }

    /** The branch of rt_schedule that compares the running thread with the most urgent
        ready one. */
    method Contest(to: Thread, highest: Priority)
      requires Valid() && current in threads && threads[current].stat == Running && lockNest == 0
      requires Legal(highest) && IsTop(Now(), highest) && highest in ready && ready[highest] != []
               && to == ready[highest][0]
      modifies this`ready, this`group, this`current, this`threads
      ensures Placed(old(Now())) && Now() == Scheduled(old(Now()), highest)
      ensures Valid() && current in threads
    {
      var c := threads[current];
      Unyield();
      if c.priority.w < highest.w || (c.priority == highest && !c.yielding) {
        RunOn();
        return;
      }
      TopThread(Now(), highest);
      Switch(to, highest, true);
    }

    /** The yield request of the running thread is dropped. */
    method Unyield()
      requires Valid() && current in threads
      modifies this`threads
      ensures Valid() && threads == old(threads)[current := old(threads)[current].(yielding := false)]
    {
      ghost var s := Now();
      MaskOf(threads, masks, current);
      TouchKeeps(s, current, threads[current].(yielding := false));
      ThreadOf(s, current);
      Remasked(threads, masks, current, threads[current].(yielding := false), masks[current]);
      assert masks[current := masks[current]] == masks;
      threads := threads[current := threads[current].(yielding := false)];
      assert Now() == s.(threads := threads);
    }

    /** The branch of rt_schedule that keeps the running thread: it is in no queue, so taking
        it out changes nothing. */
    method RunOn()
      requires Valid() && current in threads && threads[current].stat == Running
      modifies this`ready, this`group, this`threads
      ensures Now() == old(Now()) && Valid()
    {
      ghost var s := Now();
      ThreadOf(s, current);
      MaskOf(threads, masks, current);
      Queue(s, threads[current].priority);
      NotReadyNotQueued(s, current);
      var t: Thread := current;
      NotWithout(ready[threads[t].priority], t);
      RemoveThread(t);
      threads := threads[current := threads[current].(stat := Running)];
      assert threads == s.threads && ready == s.ready && Bits(group) == s.group;
    }

    /** rt_thread_suspend; the caller schedules. */
    method Suspend(t: Thread) returns (ok: bool)
      requires Valid() && t in threads && (threads[t].stat == Running ==> t == current)
      modifies this`ready, this`group, this`threads
      ensures Valid() && ok == (old(threads)[t].stat in {Ready, Running})
      ensures old(threads)[t].priority in old(ready) && Now() == Stopped(old(Now()), t)
      ensures if ok then OnlyMoves(old(Now()), Now(), t, old(threads)[t].(stat := Suspended)) else Now() == old(Now())
    {
      ghost var s := Now();
      StopKeeps(s, t);
      StopMoves(s, t);
      if threads[t].stat !in {Ready, Running} {
        return false;
      }
      MaskOf(threads, masks, t);
      Remasked(threads, masks, t, threads[t].(stat := Suspended), masks[t]);
      assert masks[t := masks[t]] == masks;
      RemoveThread(t);
      threads := threads[t := threads[t].(stat := Suspended)];
      ok := true;
    }

    /** rt_thread_resume. */
    method Resume(t: Thread) returns (ok: bool)
      requires Valid() && t in threads
      modifies this`ready, this`group, this`threads
      ensures Valid() && ok == (old(threads)[t].stat == Suspended)
      ensures old(threads)[t].priority in old(ready) && Now() == Resumed(old(Now()), t)
      ensures if ok then
                OnlyMoves(old(Now()), Now(), t, old(threads)[t].(stat := if t == current then Running else Ready))
              else Now() == old(Now())
    {
      ghost var s := Now();
      ResumeKeeps(s, t);
      ResumeMoves(s, t);
      if threads[t].stat != Suspended {
        return false;
      }
      MaskOf(threads, masks, t);
      InsertThread(t);
      Remasked(s.threads, masks, t, threads[t], masks[t]);
      assert masks[t := masks[t]] == masks;
      ok := true;
    }

    /** rt_thread_timeout: the sleeper is ready again, and the most urgent thread runs. */
    method Timeout(t: Thread)
      requires Valid() && t in threads && threads[t].stat == Suspended
      requires current in threads
      modifies this`ready, this`group, this`current, this`threads
      ensures Valid() && current in threads && Step(old(Now()), Now(), Expires(t))
      ensures t in threads && threads[t].stat in {Ready, Running}
    {
      ghost var s := Now();
      ResumeKeeps(s, t);
      var ok := Resume(t);
      ghost var s1 := Now();
      ghost var top := Schedule();
      ScheduleStats(s1, top, t);
      assert Reschedules(s1, Now());
    }

    /** rt_thread_control with a new priority. */
    method ChangePriority(t: Thread, p: Priority)
      requires Valid() && t in threads && Legal(p)
      modifies this`ready, this`group, this`threads, this`masks
      ensures Valid() && old(threads)[t].priority in old(ready) && p in old(ready) && Now() == Changed(old(Now()), t, p)
      ensures OnlyMoves(old(Now()), Now(), t, old(threads)[t].(priority := p))
    {
      ghost var s := Now();
      ChangeKeeps(s, t, p);
      MaskOf(threads, masks, t);
      if threads[t].stat == Ready {
        RemoveThread(t);
        Queue(s, p);
        ThreadOf(s, t);
        RemoveKeeps(s, t, threads[t].(priority := p));
        threads, masks := threads[t := threads[t].(priority := p)], masks[t := Mask(p.w)];
        InsertThread(t);
        Remasked(s.threads, old(masks), t, threads[t], Mask(p.w));
        assert threads == s.threads[t := threads[t]];
      } else {
        Remasked(threads, masks, t, threads[t].(priority := p), Mask(p.w));
        threads, masks := threads[t := threads[t].(priority := p)], masks[t := Mask(p.w)];
      }
      assert Now() == Changed(s, t, p);
      ChangeMoves(s, t, p);
    }

    /** rt_thread_init: a new thread, not started yet. */
    method Create(t: Thread, p: Priority)
      requires Valid() && t !in threads && Legal(p)
      modifies this`threads, this`masks
      ensures Valid() && threads == old(threads)[t := Tcb(Init, false, p, p)]
    {
      RedressKeeps(Now(), t, Tcb(Init, false, p, p));
      Remasked(threads, masks, t, Tcb(Init, false, p, p), 0);
      ghost var s := Now();
      threads, masks := threads[t := Tcb(Init, false, p, p)], masks[t := 0];
      assert Now() == s.(threads := threads);
    }

    /** rt_thread_startup. */
    method Startup(t: Thread)
      requires Valid() && t in threads && threads[t].stat == Init
      modifies this`ready, this`group, this`current, this`threads, this`masks
      ensures Valid() && t in threads && threads[t].stat in {Ready, Running}
      ensures Step(old(Now()), Now(), Starts(t))
    {
      ghost var s := Now();
      ReadiedKeeps(s, t);
      ThreadOf(s, t);
      var c := threads[t].(priority := threads[t].initPriority, stat := Suspended, yielding := false);
      RedressKeeps(s, t, c);
      Remasked(threads, masks, t, c, Mask(c.priority.w));
      threads, masks := threads[t := c], masks[t := Mask(c.priority.w)];
      assert Now() == s.(threads := s.threads[t := c]);
      var ok := Resume(t);
      ghost var s1 := Now();
      assert s1 == Readied(s, t);
      if current != NOBODY {
        ghost var top := Schedule();
        ScheduleStats(s1, top, t);
      }
      assert Reschedules(s1, Now());
    }

    /** rt_system_scheduler_start, once some thread is ready. */
    method Start()
      requires Valid() && current == NOBODY && group != 0
      modifies this`ready, this`group, this`current, this`threads
      ensures Valid() && Step(old(Now()), Now(), Boots) && current in threads && threads[current].stat == Running
      ensures forall t :: t in threads && threads[t].stat == Ready ==>
              threads[current].priority.w <= threads[t].priority.w
    {
      ghost var s := Now();
      var to, highest := GetHighest();
      BeginKeeps(s, highest);
      TopThread(s, highest);
      MaskOf(threads, masks, to);
      Queue(s, highest);
      current := to;
      Remasked(threads, masks, to, threads[to].(stat := Running, yielding := false), masks[to]);
      assert masks[to := masks[to]] == masks;
      RemoveThread(to);
      threads := threads[to := threads[to].(stat := Running, yielding := false)];
      GroupEmpty(old(group));
      assert Now() == Begun(s, highest);
      forall t | t in threads && threads[t].stat == Ready ensures threads[current].priority.w <= threads[t].priority.w {
        ReadyInGroup(s, t);
      }
    }

    /** rt_enter_critical and rt_exit_critical: leaving the last level schedules. */
    method EnterCritical()
      requires Valid()
      modifies this`lockNest
      ensures Valid() && Now() == old(Now()).(lockNest := old(lockNest) + 1)
    {
      ghost var s := Now();
      RelockKeeps(s, lockNest + 1);
      lockNest := lockNest + 1;
      assert Now() == s.(lockNest := lockNest);
    }

    method ExitCritical()
      requires Valid()
      modifies this
      ensures Valid() && Step(old(Now()), Now(), Unlocks)
      ensures lockNest == if old(lockNest) == 0 then 0 else old(lockNest) - 1
      ensures old(lockNest) > 1 || current == NOBODY ==> Now() == old(Now()).(lockNest := lockNest)
    {
      ghost var s := Now();
      var nest := lockNest - 1;
      RelockKeeps(s, if nest <= 0 then 0 else nest);
      lockNest := if nest <= 0 then 0 else nest;
      assert Now() == Unlocked(s);
      if nest <= 0 && current != NOBODY {
        ghost var top := Schedule();
        LockKept(Unlocked(s), top);
      }
      assert nest <= 0 ==> Reschedules(Unlocked(s), Now());
    }

    /** rt_thread_yield. */
    method Yield() returns (ghost top: Priority)
      requires Valid() && current in threads
      modifies this`ready, this`group, this`current, this`threads
      ensures Placed(old(Now())) && (old(Now()).group != iset{} ==> Legal(top) && IsTop(old(Now()), top))
      ensures Now() == Yielded(old(Now()), top)
      ensures Valid() && current in threads
    {
      ghost var s := Now();
      var c := threads[current].(yielding := true);
      ThreadOf(s, current);
      MaskOf(threads, masks, current);
      TouchKeeps(s, current, c);
      Remasked(threads, masks, current, c, masks[current]);
      assert masks[current := masks[current]] == masks;
      threads := threads[current := c];
      assert Now() == s.(threads := s.threads[s.current := c]);
      top := Schedule();
    }

    /** One operation, if it applies; otherwise nothing. */
    method Perform(c: Command)
      requires Valid()
      modifies this
      ensures Valid() && Now() in Outcomes(old(Now()), c)
    {
      ghost var s := Now();
      match c {
        case Creates(t, p) => if t !in threads && p.w < PRIORITY_MAX { Create(t, p); }
        case Starts(t) => if t in threads && threads[t].stat.Init? { Startup(t); }
        case Boots =>
          GroupEmpty(group);
          if current == NOBODY && group != 0 { Start(); }
        case Suspends(t) =>
          if t in threads {
            StopKeeps(s, t);
            ThreadOf(s, t);
            var ok := Suspend(t);
          }
        case Resumes(t) =>
          if t in threads {
            ResumeKeeps(s, t);
            var ok := Resume(t);
          }
        case Expires(t) => Expire(t);
        case Changes(t, p) =>
          if t in threads && p.w < PRIORITY_MAX {
            ChangeKeeps(s, t, p);
            ChangePriority(t, p);
          }
        case GivesWay => if current != NOBODY { ghost var top := Yield(); }
        case Locks => EnterCritical();
        case Unlocks => ExitCritical();
        case Calls =>
          if current != NOBODY { ghost var top := Schedule(); }
          assert Reschedules(s, Now());
      }
    }

    /** One operation more. */
    method Continue(ghost front: seq<Command>, c: Command)
      requires Valid() && Reachable(front, Now())
      modifies this
      ensures Valid() && Reachable(front + [c], Now())
    {
      ghost var s := Now();
      Perform(c);
      OneMoreStep(front, c, s, Now());
    }

    /** A timer fires, before the scheduler is started or after. */
    method Expire(t: Thread)
      requires Valid()
      modifies this`ready, this`group, this`current, this`threads
      ensures Valid() && Step(old(Now()), Now(), Expires(t))
    {
      if t in threads && threads[t].stat.Suspended? {
        if current != NOBODY {
          Timeout(t);
        } else {
          ResumeKeeps(Now(), t);
          var ok := Resume(t);
          assert Reschedules(Now(), Now());
        }
      }
    }
  }

  /** Whatever is done to whatever threads in whatever order, the state is one AlwaysPlaced and
      AlwaysUrgent speak of. */
  method Run(schedule: seq<Command>) returns (k: Kernel)
    ensures k.Valid() && Reachable(schedule, k.Now())
  {
    k := new Kernel();
    for i := 0 to |schedule|
      invariant k.Valid() && fresh(k) && Reachable(schedule[..i], k.Now())
    {
      assert schedule[..i + 1] == schedule[..i] + [schedule[i]];
      k.Continue(schedule[..i], schedule[i]);
    }
    assert schedule[..|schedule|] == schedule;
  }

  /** A thread that is ready or runs before a schedule is ready or runs after it. */
  lemma ScheduleStats(s: State, top: Priority, t: Thread)
    requires Placed(s) && s.current in s.threads && (s.group != iset{} ==> Legal(top) && IsTop(s, top))
    requires t in s.threads && s.threads[t].stat in {Ready, Running}
    ensures t in Scheduled(s, top).threads && Scheduled(s, top).threads[t].stat in {Ready, Running}
  {
    if s.lockNest == 0 && s.group != iset{} {
      var c := s.threads[s.current];
      TouchKeeps(s, s.current, c.(yielding := false));
      TopThread(s, top);
    }
  }

  lemma SwitchedTo(s: State, top: Priority, from: Thread, putBack: bool)
    requires from in s.threads && s.threads[from].priority in s.ready && top in s.ready && s.ready[top] != []
    requires s.ready[top][0] in s.threads && s.ready[top][0] != from && s.threads[s.ready[top][0]].priority == top
    ensures var s2 := if putBack then Enlisted(s, from) else s; var to := s.ready[top][0];
            to in s2.threads && s2.threads[to] == s.threads[to] && top in s2.ready
  {
  }
}
