/** The mutex (ipc.c): priority inheritance and direct hand-over, for one mutex whose
    users change no priorities themselves. Each method of Mutex is one region the kernel
    runs with interrupts disabled, so every interleaving of calls is a sequence of calls.

    The invariant has a few parts; `Broken` is the set of those that fail, and is empty in every
    reachable state. Where a part speaks of all threads, nodes or places, it is the set of
    offenders that is empty, so that a step is proved one of them at a time. */
module Mutexes {
  import opened Sequences
  import opened WaitLists

  const HOLD_MAX: nat := 0xff
  const VALUE_MAX: nat := 0xffff
  const NO_PRIORITY: nat := 0xff

  datatype Owner = Nobody | Held(thread: Thread)

  datatype Locals = None

  type Tasks = map<Thread, Task<Locals>>

  /** A mutex at one moment. The proof also knows every thread's own priority, how many
      takes each thread has not released yet, and when each waiter came. */
  datatype State = State(
    value: nat, owner: Owner, originalPriority: nat, hold: nat, wait: seq<Thread>, tasks: Tasks,
    own: map<Thread, nat>, takes: map<Thread, nat>, since: map<Thread, nat>, clock: nat)

  // The invariant

  /** Free, or held by one thread as often as it has taken it. */
  ghost predicate Ownership(s: State) {
    match s.owner
    case Nobody => s.value == 1 && s.hold == 0 && s.wait == [] && s.originalPriority == NO_PRIORITY
    case Held(o) =>
      && s.value == 0 && 0 < s.hold <= HOLD_MAX && o in s.tasks && s.tasks[o].at != TakeBlocked
      && o in s.own && s.originalPriority == s.own[o]
  }

  /** Threads whose count of takes is not what the mutex says. */
  ghost function Miscounted(owner: Owner, hold: nat, tasks: Tasks, takes: map<Thread, nat>): set<Thread> {
    set t | t in tasks && !(t in takes && takes[t] == if owner == Held(t) then hold else 0)
  }

  /** Threads other than the owner that do not run at their own priority, and an owner less
      urgent than its own. */
  ghost function Misplaced(owner: Owner, tasks: Tasks, own: map<Thread, nat>): set<Thread> {
    set t | t in tasks && !(&& t in own
                            && if owner == Held(t) then tasks[t].priority <= own[t] else tasks[t].priority == own[t])
  }

  /** Waiter i stands before waiter j for a reason. */
  ghost predicate Before(wait: seq<Thread>, tasks: Tasks, since: map<Thread, nat>, i: nat, j: nat)
    requires i < |wait| && j < |wait|
  {
    var a, b := wait[i], wait[j];
    && a in tasks && b in tasks && a in since && b in since
    && (tasks[a].priority < tasks[b].priority || (tasks[a].priority == tasks[b].priority && since[a] < since[b]))
  }

  /** Pairs of waiters out of order: the more urgent first, among equals the earlier. */
  ghost function OutOfOrder(wait: seq<Thread>, tasks: Tasks, since: map<Thread, nat>): set<(nat, nat)> {
    set i: nat, j: nat | i < j < |wait| && !Before(wait, tasks, since, i, j) :: (i, j)
  }

  /** Waiters that claim to come later than now. */
  ghost function Future(wait: seq<Thread>, since: map<Thread, nat>, clock: nat): set<Thread> {
    set t | t in wait && !(t in since && since[t] < clock)
  }

  ghost predicate Waiters(s: State) {
    && Distinct(s.wait) && Elements(s.wait) == At(s.tasks, TakeBlocked)
    && OutOfOrder(s.wait, s.tasks, s.since) == {} && Future(s.wait, s.since, s.clock) == {}
  }

  /** The owner is never less urgent than the first waiter. */
  ghost predicate Inherits(s: State) {
    s.owner.Held? && s.wait != [] ==>
      s.owner.thread in s.tasks && s.wait[0] in s.tasks
          && s.tasks[s.owner.thread].priority <= s.tasks[s.wait[0]].priority
  }

  datatype Part = OwnerPart | CountPart | PlacePart | WaitPart | InheritPart

  ghost predicate Whole(s: State, part: Part) {
    match part
    case OwnerPart => Ownership(s)
    case CountPart => Miscounted(s.owner, s.hold, s.tasks, s.takes) == {}
    case PlacePart => Misplaced(s.owner, s.tasks, s.own) == {}
    case WaitPart => Waiters(s)
    case InheritPart => Inherits(s)
  }

  /** The parts of the invariant that s breaks: none, in any reachable state. */
  ghost function Broken(s: State): set<Part> {
    set part: Part | !Whole(s, part)
  }

  lemma Intact(s: State)
    requires Broken(s) == {}
    ensures Ownership(s) && Waiters(s) && Inherits(s)
    ensures Miscounted(s.owner, s.hold, s.tasks, s.takes) == {} && Misplaced(s.owner, s.tasks, s.own) == {}
  {
    forall part: Part ensures Whole(s, part) {
      assert part !in Broken(s);
    }
    assert Whole(s, OwnerPart) && Whole(s, CountPart) && Whole(s, PlacePart) && Whole(s, WaitPart)
        && Whole(s, InheritPart);
  }

  lemma AllIntact(s: State)
    requires Ownership(s) && Waiters(s) && Inherits(s)
    requires Miscounted(s.owner, s.hold, s.tasks, s.takes) == {} && Misplaced(s.owner, s.tasks, s.own) == {}
    ensures Broken(s) == {}
  {
  }

  /** The facts about one thread. */
  lemma ThreadFacts(s: State, t: Thread)
    requires Miscounted(s.owner, s.hold, s.tasks, s.takes) == {} && Misplaced(s.owner, s.tasks, s.own) == {}
             && t in s.tasks
    ensures t in s.takes && s.takes[t] == if s.owner == Held(t) then s.hold else 0
    ensures t in s.own && if s.owner == Held(t) then s.tasks[t].priority <= s.own[t]
            else s.tasks[t].priority == s.own[t]
  {
    assert t !in Miscounted(s.owner, s.hold, s.tasks, s.takes) && t !in Misplaced(s.owner, s.tasks, s.own);
  }

  lemma InOrder(wait: seq<Thread>, tasks: Tasks, since: map<Thread, nat>, i: nat, j: nat)
    requires OutOfOrder(wait, tasks, since) == {} && i < j < |wait|
    ensures Before(wait, tasks, since, i, j)
  {
    assert (i, j) !in OutOfOrder(wait, tasks, since);
  }

  // The waiting list

  /** The list depends only on the priorities of the threads in it. */
  lemma SameOrder(wait: seq<Thread>, tasks: Tasks, tasks': Tasks, since: map<Thread, nat>)
    requires OutOfOrder(wait, tasks, since) == {}
    requires forall t :: t in wait ==> t in tasks' && t in tasks && tasks'[t].priority == tasks[t].priority
    ensures OutOfOrder(wait, tasks', since) == {}
  {
    forall i: nat, j: nat | i < j < |wait| ensures Before(wait, tasks', since, i, j) {
      InOrder(wait, tasks, since, i, j);
    }
  }

  /** A part of the list, in the same order. */
  lemma PartOrder(wait: seq<Thread>, tasks: Tasks, since: map<Thread, nat>, i: nat)
    requires OutOfOrder(wait, tasks, since) == {} && i < |wait|
    ensures OutOfOrder(wait[..i] + wait[i + 1..], tasks, since) == {}
  {
    var part := wait[..i] + wait[i + 1..];
    forall a: nat, b: nat | a < b < |part| ensures Before(part, tasks, since, a, b) {
      InOrder(wait, tasks, since, if a < i then a else a + 1, if b < i then b else b + 1);
    }
  }

  lemma OrderIsSorted(wait: seq<Thread>, tasks: Tasks, since: map<Thread, nat>)
    requires OutOfOrder(wait, tasks, since) == {}
    ensures Sorted(wait, tasks)
  {
    forall i, j | 0 <= i < j < |wait| && wait[i] in tasks && wait[j] in tasks
      ensures tasks[wait[i]].priority <= tasks[wait[j]].priority
    {
      InOrder(wait, tasks, since, i, j);
    }
  }

  /** A newcomer stands in order: behind everyone as urgent who came before. */
  lemma JoinPair(wait: seq<Thread>, tasks: Tasks, since: map<Thread, nat>, clock: nat, t: Thread, p: nat, i: nat,
                 j: nat)
    requires OutOfOrder(wait, tasks, since) == {} && t in tasks && t !in wait && p <= |wait| && i < j <= |wait|
    requires forall k :: 0 <= k < |wait| ==>
               && wait[k] in tasks && wait[k] in since && since[wait[k]] < clock
               && (k < p <==> tasks[wait[k]].priority <= tasks[t].priority)
    ensures Before(wait[..p] + [t] + wait[p..], tasks, since[t := clock], i, j)
  {
    var after := wait[..p] + [t] + wait[p..];
    assert forall k :: 0 <= k < p ==> after[k] == wait[k];
    assert forall k :: p < k < |after| ==> after[k] == wait[k - 1];
    if i != p && j != p {
      InOrder(wait, tasks, since, if i < p then i else i - 1, if j < p then j else j - 1);
    }
  }

  lemma JoinOrder(wait: seq<Thread>, tasks: Tasks, since: map<Thread, nat>, clock: nat, t: Thread)
    requires OutOfOrder(wait, tasks, since) == {} && Future(wait, since, clock) == {}
    requires t in tasks && t !in wait && Elements(wait) <= tasks.Keys
    ensures OutOfOrder(Enqueued(wait, tasks, t, Prio), tasks, since[t := clock]) == {}
    ensures Future(Enqueued(wait, tasks, t, Prio), since[t := clock], clock + 1) == {}
  {
    OrderIsSorted(wait, tasks, since);
    PlaceSplits(wait, tasks, tasks[t].priority);
    var p := Place(wait, tasks, tasks[t].priority);
    var after, since' := wait[..p] + [t] + wait[p..], since[t := clock];
    forall x | x in wait ensures x in since && since[x] < clock && x in tasks {
      assert x !in Future(wait, since, clock) && x in Elements(wait);
    }
    forall i: nat, j: nat | i < j < |after| ensures Before(after, tasks, since', i, j) {
      JoinPair(wait, tasks, since, clock, t, p, i, j);
    }
    forall x | x in after ensures x in since' && since'[x] < clock + 1 {
    }
  }

  /** A thread that does not wait, before or after, leaves the list in order. */
  lemma BystanderWaiters(s: State, t: Thread, task: Task<Locals>)
    requires Waiters(s) && t in s.tasks && s.tasks[t].at != TakeBlocked && task.at != TakeBlocked
    ensures Waiters(s.(tasks := s.tasks[t := task])) && t !in s.wait
  {
    Stepped(s.tasks, t, task, TakeBlocked);
    assert t !in At(s.tasks, TakeBlocked);
    forall x | x in s.wait ensures x in s.tasks && x != t {
      assert x in Elements(s.wait);
    }
    SameOrder(s.wait, s.tasks, s.tasks[t := task], s.since);
  }

  /** The first waiter is blocked, runs at its own priority, and is not the owner. */
  lemma FirstWaiter(s: State)
    requires Broken(s) == {} && s.wait != []
    ensures s.owner.Held? && s.owner.thread in s.tasks && s.owner.thread !in s.wait
    ensures s.wait[0] in s.tasks && s.tasks[s.wait[0]].at == TakeBlocked && s.owner != Held(s.wait[0])
    ensures s.wait[0] in s.own && s.tasks[s.wait[0]].priority == s.own[s.wait[0]]
    ensures s.wait[0] in s.takes && s.takes[s.wait[0]] == 0
  {
    Intact(s);
    assert s.wait[0] in Elements(s.wait);
    assert s.owner.thread !in At(s.tasks, TakeBlocked);
    assert s.owner.thread !in Elements(s.wait);
    ThreadFacts(s, s.wait[0]);
  }

  lemma OwnerFacts(s: State)
    requires Broken(s) == {} && s.owner.Held?
    ensures s.owner.thread in s.tasks && s.tasks[s.owner.thread].at != TakeBlocked && s.value == 0 && s.hold > 0
    ensures s.owner.thread in s.own && s.originalPriority == s.own[s.owner.thread]
    ensures s.owner.thread in s.takes && s.takes[s.owner.thread] == s.hold && s.owner.thread !in s.wait
    ensures s.tasks[s.owner.thread].priority <= s.own[s.owner.thread]
  {
    Intact(s);
    assert s.owner.thread !in At(s.tasks, TakeBlocked);
    assert s.owner.thread !in Elements(s.wait);
    ThreadFacts(s, s.owner.thread);
  }

  /** The owner is never less urgent than any waiter, and waiters stand most urgent first,
      among equals first come first. */
  lemma OwnerMostUrgent(s: State, i: nat)
    requires Broken(s) == {} && i < |s.wait|
    ensures s.owner.Held? && s.owner.thread in s.tasks && s.wait[i] in s.tasks
    ensures s.tasks[s.owner.thread].priority <= s.tasks[s.wait[i]].priority
    ensures forall j :: i < j < |s.wait| ==> Before(s.wait, s.tasks, s.since, i, j)
  {
    Intact(s);
    assert s.wait[i] in Elements(s.wait);
    if i > 0 {
      InOrder(s.wait, s.tasks, s.since, 0, i);
    }
    forall j | i < j < |s.wait| ensures Before(s.wait, s.tasks, s.since, i, j) {
      InOrder(s.wait, s.tasks, s.since, i, j);
    }
  }

  /** Free or held, never anything else. */
  lemma FreeOrHeld(s: State)
    requires Broken(s) == {}
    ensures (s.owner == Nobody && s.value == 1 && s.hold == 0 && s.wait == [])
         || (s.owner.Held? && s.value == 0 && s.owner.thread in s.takes && 0 < s.hold == s.takes[s.owner.thread])
    ensures forall t :: t in s.tasks && s.owner != Held(t) ==> t in s.takes && s.takes[t] == 0
  {
    Intact(s);
    if s.owner.Held? {
      ThreadFacts(s, s.owner.thread);
    }
    forall t | t in s.tasks && s.owner != Held(t) ensures t in s.takes && s.takes[t] == 0 {
      ThreadFacts(s, t);
    }
  }

  // The steps

  /** A thread that does not wait moves on, at the same priority. */
  ghost function Moved(s: State, t: Thread, task: Task<Locals>): State {
    s.(tasks := s.tasks[t := task])
  }

  lemma MoveKeeps(s: State, t: Thread, task: Task<Locals>)
    requires Broken(s) == {} && t in s.tasks && s.tasks[t].at != TakeBlocked && task.at != TakeBlocked
    requires task.priority == s.tasks[t].priority
    ensures Broken(Moved(s, t, task)) == {}
  {
    Intact(s);
    BystanderWaiters(s, t, task);
    OthersPlaced(s, t, task);
    AllIntact(Moved(s, t, task));
  }

  lemma OthersPlaced(s: State, t: Thread, task: Task<Locals>)
    requires Misplaced(s.owner, s.tasks, s.own) == {} && Miscounted(s.owner, s.hold, s.tasks, s.takes) == {}
    requires t in s.tasks && task.priority == s.tasks[t].priority
    ensures Misplaced(s.owner, s.tasks[t := task], s.own) == {}
    ensures Miscounted(s.owner, s.hold, s.tasks[t := task], s.takes) == {}
  {
    var tasks := s.tasks[t := task];
    forall x | x in tasks
      ensures x !in Misplaced(s.owner, tasks, s.own) && x !in Miscounted(s.owner, s.hold, tasks, s.takes)
    {
      ThreadFacts(s, x);
    }
  }

  /** The owner takes the mutex again, or gives one take back. */
  ghost function Counted(s: State, t: Thread, task: Task<Locals>, hold: nat): State {
    s.(hold := hold, takes := s.takes[t := hold], tasks := s.tasks[t := task])
  }

  lemma CountKeeps(s: State, t: Thread, task: Task<Locals>, hold: nat)
    requires Broken(s) == {} && s.owner == Held(t) && t in s.tasks && 0 < hold <= HOLD_MAX
    requires task.at != TakeBlocked && task.priority == s.tasks[t].priority
    ensures Broken(Counted(s, t, task, hold)) == {}
  {
    Intact(s);
    BystanderWaiters(s, t, task);
    OthersPlaced(s, t, task);
    var s' := Counted(s, t, task, hold);
    forall x | x in s'.tasks ensures x !in Miscounted(s'.owner, s'.hold, s'.tasks, s'.takes) {
      ThreadFacts(s, x);
    }
    AllIntact(s');
  }

  /** A free mutex taken. */
  ghost function Acquired(s: State, t: Thread, task: Task<Locals>): State {
    s.(value := 0, owner := Held(t), originalPriority := task.priority, hold := 1,
       takes := s.takes[t := 1], tasks := s.tasks[t := task])
  }

  lemma AcquireKeeps(s: State, t: Thread, task: Task<Locals>)
    requires Broken(s) == {} && s.owner == Nobody && t in s.tasks && s.tasks[t].at != TakeBlocked
    requires task.at != TakeBlocked && task.priority == s.tasks[t].priority
    ensures Broken(Acquired(s, t, task)) == {}
  {
    Intact(s);
    BystanderWaiters(s, t, task);
    var s' := Acquired(s, t, task);
    forall x | x in s'.tasks
      ensures x !in Miscounted(s'.owner, s'.hold, s'.tasks, s'.takes) && x !in Misplaced(s'.owner, s'.tasks, s'.own)
    {
      ThreadFacts(s, x);
    }
    ThreadFacts(s, t);
    AllIntact(s');
  }

  /** Raising the owner to priority p, if that is more urgent. */
  function Boosted(tasks: Tasks, o: Thread, p: nat): Tasks {
    if o in tasks && p < tasks[o].priority then tasks[o := tasks[o].(priority := p)] else tasks
  }

  /** A thread suspended on the mutex, with the owner inheriting its priority. */
  ghost function Queued(s: State, t: Thread, task: Task<Locals>): State
    requires s.owner.Held?
  {
    var tasks := Boosted(s.tasks, s.owner.thread, task.priority)[t := task];
    s.(tasks := tasks, wait := Enqueued(s.wait, tasks, t, Prio), since := s.since[t := s.clock], clock := s.clock + 1)
  }

  lemma BoostKeeps(s: State, p: nat)
    requires Broken(s) == {} && s.owner.Held?
    ensures Broken(s.(tasks := Boosted(s.tasks, s.owner.thread, p))) == {}
  {
    OwnerFacts(s);
    Intact(s);
    var o := s.owner.thread;
    if p < s.tasks[o].priority {
      var task := s.tasks[o].(priority := p);
      BystanderWaiters(s, o, task);
      var s' := s.(tasks := s.tasks[o := task]);
      forall x | x in s'.tasks
        ensures x !in Miscounted(s'.owner, s'.hold, s'.tasks, s'.takes) && x !in Misplaced(s'.owner, s'.tasks, s'.own)
      {
        ThreadFacts(s, x);
      }
      AllIntact(s');
    }
  }

  lemma QueueKeeps(s: State, t: Thread, task: Task<Locals>)
    requires Broken(s) == {} && s.owner.Held? && s.owner != Held(t) && t in s.tasks && s.tasks[t].at != TakeBlocked
    requires task.at == TakeBlocked && task.priority == s.tasks[t].priority
    ensures Elements(s.wait) <= Boosted(s.tasks, s.owner.thread, task.priority)[t := task].Keys
    ensures Broken(Queued(s, t, task)) == {}
  {
    var b := s.(tasks := Boosted(s.tasks, s.owner.thread, task.priority));
    BoostKeeps(s, task.priority);
    Intact(b);
    OwnerFacts(b);
    var s' := Queued(s, t, task);
    assert t !in At(b.tasks, TakeBlocked) && t !in Elements(b.wait);
    Stepped(b.tasks, t, task, TakeBlocked);
    forall x | x in b.wait ensures x in b.tasks && x in s'.tasks && s'.tasks[x].priority == b.tasks[x].priority {
      assert x in Elements(b.wait);
    }
    SameOrder(b.wait, b.tasks, s'.tasks, b.since);
    JoinOrder(b.wait, s'.tasks, b.since, b.clock, t);
    EnqueuedFacts(b.wait, s'.tasks, t, Prio);
    OthersPlaced(b, t, task);
    QueueInherits(b, s', t, task);
    AllIntact(s');
  }

  lemma QueueInherits(b: State, s': State, t: Thread, task: Task<Locals>)
    requires Inherits(b) && b.owner.Held? && b.owner.thread in b.tasks && b.owner != Held(t)
    requires b.tasks[b.owner.thread].priority <= task.priority
    requires s'.owner == b.owner && s'.tasks == b.tasks[t := task] && s'.wait == Enqueued(b.wait, s'.tasks, t, Prio)
    requires Elements(b.wait) <= b.tasks.Keys && t !in b.wait
    ensures Inherits(s')
  {
    if b.wait != [] {
      assert b.wait[0] in Elements(b.wait);
    }
  }

  /** A suspended thread resumed with an error. The owner keeps the priority it inherited. */
  ghost function Expelled(s: State, t: Thread, task: Task<Locals>): State {
    s.(tasks := s.tasks[t := task], wait := Without(s.wait, t))
  }

  lemma ExpelKeeps(s: State, t: Thread, task: Task<Locals>)
    requires Broken(s) == {} && t in s.tasks && s.tasks[t].at == TakeBlocked
    requires task.at != TakeBlocked && task.priority == s.tasks[t].priority
    ensures Broken(Expelled(s, t, task)) == {}
  {
    Intact(s);
    assert t in Elements(s.wait);
    var i := WithoutIs(s.wait, t);
    WithoutFacts(s.wait, t);
    Stepped(s.tasks, t, task, TakeBlocked);
    PartOrder(s.wait, s.tasks, s.since, i);
    var s' := Expelled(s, t, task);
    forall x | x in s'.wait ensures x in s.wait && x in s.tasks && s'.tasks[x].priority == s.tasks[x].priority {
      assert x in Elements(s'.wait) && x in Elements(s.wait);
    }
    SameOrder(s'.wait, s.tasks, s'.tasks, s.since);
    forall x | x in s'.wait ensures x !in Future(s'.wait, s.since, s.clock) {
      assert x !in Future(s.wait, s.since, s.clock);
    }
    OthersPlaced(s, t, task);
    if s'.wait != [] {
      OwnerFacts(s);
      OwnerMostUrgent(s, if i == 0 then 1 else 0);
    }
    AllIntact(s');
  }

  /** The last release with nobody waiting: the mutex is free and its owner as urgent as
      it was when it took it. */
  ghost function Released(s: State, t: Thread, task: Task<Locals>): State {
    s.(value := 1, owner := Nobody, originalPriority := NO_PRIORITY, hold := 0,
       takes := s.takes[t := 0], tasks := s.tasks[t := task])
  }

  lemma ReleaseKeeps(s: State, t: Thread, task: Task<Locals>)
    requires Broken(s) == {} && s.owner == Held(t) && s.wait == [] && t in s.tasks
    requires task.at != TakeBlocked && task.priority == s.originalPriority
    ensures Broken(Released(s, t, task)) == {}
  {
    Intact(s);
    OwnerFacts(s);
    BystanderWaiters(s, t, task);
    var s' := Released(s, t, task);
    forall x | x in s'.tasks
      ensures x !in Miscounted(s'.owner, s'.hold, s'.tasks, s'.takes) && x !in Misplaced(s'.owner, s'.tasks, s'.own)
    {
      ThreadFacts(s, x);
    }
    AllIntact(s');
  }

  /** The last release with threads waiting: the first of them owns the mutex at once. */
  ghost function HandedOver(s: State, t: Thread, task: Task<Locals>): State
    requires s.wait != [] && s.wait[0] in s.tasks
  {
    var h := s.wait[0];
    s.(owner := Held(h), originalPriority := s.tasks[h].priority, hold := 1, takes := s.takes[t := 0][h := 1],
       tasks := s.tasks[t := task][h := s.tasks[h].(at := Granted, timer := false)], wait := s.wait[1..])
  }

  lemma HandOverKeeps(s: State, t: Thread, task: Task<Locals>)
    requires Broken(s) == {} && s.owner == Held(t) && s.wait != [] && t in s.tasks
    requires task.at != TakeBlocked && task.priority == s.originalPriority
    ensures s.wait[0] in s.tasks && s.wait[0] != t && Broken(HandedOver(s, t, task)) == {}
  {
    FirstWaiter(s);
    OwnerFacts(s);
    Intact(s);
    BystanderWaiters(s, t, task);
    var h, s' := s.wait[0], HandedOver(s, t, task);
    var tasks := s.tasks[t := task];
    HeadFacts(s.wait);
    Stepped(tasks, h, s'.tasks[h], TakeBlocked);
    assert s.wait[1..] == s.wait[..0] + s.wait[0 + 1..];
    forall x | x in s.wait ensures x in tasks && (x == h || x in Elements(s'.wait)) {
      assert x in Elements(s.wait);
    }
    PartOrder(s.wait, tasks, s.since, 0);
    SameOrder(s'.wait, tasks, s'.tasks, s.since);
    forall x | x in s'.wait ensures x !in Future(s'.wait, s.since, s.clock) {
      assert x !in Future(s.wait, s.since, s.clock);
    }
    HandOverCounts(s, t, task);
    if |s.wait| > 1 {
      InOrder(s.wait, s.tasks, s.since, 0, 1);
      assert s.wait[1] in Elements(s'.wait);
    }
    AllIntact(s');
  }

  lemma HandOverCounts(s: State, t: Thread, task: Task<Locals>)
    requires Broken(s) == {} && s.owner == Held(t) && s.wait != [] && t in s.tasks
    requires task.priority == s.originalPriority
    ensures s.wait[0] in s.tasks
    ensures var s' := HandedOver(s, t, task);
            Miscounted(s'.owner, s'.hold, s'.tasks, s'.takes) == {} && Misplaced(s'.owner, s'.tasks, s'.own) == {}
  {
    FirstWaiter(s);
    OwnerFacts(s);
    Intact(s);
    var s' := HandedOver(s, t, task);
    forall x | x in s'.tasks
      ensures x !in Miscounted(s'.owner, s'.hold, s'.tasks, s'.takes) && x !in Misplaced(s'.owner, s'.tasks, s'.own)
    {
      ThreadFacts(s, x);
    }
  }

  // How far inheritance goes

  /** The owner runs exactly as urgently as it must: at its own priority, or at the first
      waiter's if that is more urgent. */
  ghost predicate Exact(s: State) {
    s.owner.Held? && s.owner.thread in s.tasks && s.owner.thread in s.own ==>
      s.tasks[s.owner.thread].priority ==
        if s.wait != [] && s.wait[0] in s.tasks && s.tasks[s.wait[0]].priority < s.own[s.owner.thread]
        then s.tasks[s.wait[0]].priority else s.own[s.owner.thread]
  }

  /** Taking, waiting and handing over keep the owner's priority exact. */
  lemma StepsExact(s: State, t: Thread, task: Task<Locals>)
    requires Broken(s) == {} && t in s.tasks
    ensures s.owner == Nobody && task.priority == s.tasks[t].priority ==> Exact(Acquired(s, t, task))
    ensures s.wait != [] && s.owner == Held(t) && task.priority == s.originalPriority ==>
              s.wait[0] in s.tasks && Exact(HandedOver(s, t, task))
    ensures (&& Exact(s) && s.owner.Held? && s.owner != Held(t) && s.tasks[t].at != TakeBlocked
             && task.at == TakeBlocked && task.priority == s.tasks[t].priority) ==> Exact(Queued(s, t, task))
  {
    Intact(s);
    ThreadFacts(s, t);
    if s.wait != [] {
      FirstWaiter(s);
      if |s.wait| > 1 {
        InOrder(s.wait, s.tasks, s.since, 0, 1);
        assert s.wait[1] in Elements(s.wait);
      }
    }
    if && Exact(s) && s.owner.Held? && s.owner != Held(t) && s.tasks[t].at != TakeBlocked
       && task.at == TakeBlocked && task.priority == s.tasks[t].priority {
      OwnerFacts(s);
      QueueKeeps(s, t, task);
    }
  }

  /** A timeout keeps it exact unless the leaving thread is the one, and the only one, the
      owner got its priority from. */
  lemma TimeoutExact(s: State, t: Thread, task: Task<Locals>)
    requires Broken(s) == {} && Exact(s) && t in s.tasks && s.tasks[t].at == TakeBlocked
    requires task.at != TakeBlocked && task.priority == s.tasks[t].priority
    ensures s.owner.Held? && s.owner.thread in s.own && s.wait != []
    ensures |s.wait| > 1 ==> s.wait[1] in s.tasks
    ensures Exact(Expelled(s, t, task)) <==>
            !(&& t == s.wait[0] && task.priority < s.own[s.owner.thread]
              && (|s.wait| > 1 ==> task.priority < s.tasks[s.wait[1]].priority))
  {
    Intact(s);
    assert t in Elements(s.wait);
    FirstWaiter(s);
    OwnerFacts(s);
    var i := WithoutIs(s.wait, t);
    if |s.wait| > 1 {
      InOrder(s.wait, s.tasks, s.since, 0, 1);
      assert s.wait[1] in Elements(s.wait);
      OwnerMostUrgent(s, 1);
    }
    if i > 0 {
      InOrder(s.wait, s.tasks, s.since, 0, i);
    }
  }

  lemma Bounds(s: State)
    requires Broken(s) == {}
    ensures s.owner.Held? ==> s.value == 0 && 0 < s.hold <= HOLD_MAX
    ensures s.owner == Nobody ==> s.value == 1 && s.hold == 0 && s.wait == []
  {
    Intact(s);
  }

  // Runs

  /** What may happen next: a take, a release, a timeout, or a thread continuing its take. */
  datatype Command = Acquiring(t: Thread, time: int) | Releasing(t: Thread) | Expire(t: Thread) | Continue(t: Thread)

  /** rt_mutex_take, up to the suspension. */
  ghost function AfterTake(s: State, t: Thread, time: int): State
    requires t in s.tasks
  {
    var task := s.tasks[t].(error := EOK);
    if s.owner == Held(t) then if s.hold < HOLD_MAX then Counted(s, t, task, s.hold + 1) else Moved(s, t, task)
    else if s.owner == Nobody then Acquired(s, t, task)
    else if time == 0 then Moved(s, t, task.(error := ETIMEOUT))
    else Queued(s, t, task.(at := TakeBlocked, timer := time > 0))
  }

  lemma TakeKeeps(s: State, t: Thread, time: int)
    requires Broken(s) == {} && t in s.tasks && s.tasks[t].at == Idle
    ensures Broken(AfterTake(s, t, time)) == {}
  {
    var task := s.tasks[t].(error := EOK);
    Bounds(s);
    if s.owner == Held(t) {
      if s.hold < HOLD_MAX {
        CountKeeps(s, t, task, s.hold + 1);
      } else {
        MoveKeeps(s, t, task);
      }
    } else if s.owner == Nobody {
      AcquireKeeps(s, t, task);
    } else if time == 0 {
      MoveKeeps(s, t, task.(error := ETIMEOUT));
    } else {
      QueueKeeps(s, t, task.(at := TakeBlocked, timer := time > 0));
    }
  }

  /** rt_mutex_release. */
  ghost function AfterRelease(s: State, t: Thread): State
    requires t in s.tasks
  {
    var task := s.tasks[t];
    var restored := task.(priority := s.originalPriority);
    if s.owner != Held(t) then Moved(s, t, task.(error := ERROR))
    else if s.hold > 1 then Counted(s, t, task, s.hold - 1)
    else if s.wait == [] || s.wait[0] !in s.tasks then Released(s, t, restored)
    else HandedOver(s, t, restored)
  }

  lemma ReleasingKeeps(s: State, t: Thread)
    requires Broken(s) == {} && t in s.tasks && s.tasks[t].at == Idle
    ensures Broken(AfterRelease(s, t)) == {}
  {
    var task := s.tasks[t];
    Bounds(s);
    if s.owner != Held(t) {
      MoveKeeps(s, t, task.(error := ERROR));
    } else if s.hold > 1 {
      CountKeeps(s, t, task, s.hold - 1);
    } else if s.wait == [] {
      ReleaseKeeps(s, t, task.(priority := s.originalPriority));
    } else {
      HandOverKeeps(s, t, task.(priority := s.originalPriority));
    }
  }

  /** One step of some thread, if the thread is there for it; otherwise nothing. */
  ghost function Next(s: State, c: Command): State {
    if c.t !in s.tasks then s
    else
      var task := s.tasks[c.t];
      match c
      case Acquiring(t, time) => if task.at.Idle? then AfterTake(s, t, time) else s
      case Releasing(t) => if task.at.Idle? then AfterRelease(s, t) else s
      case Expire(t) =>
        if task.at.TakeBlocked? && task.timer
            then Expelled(s, t, task.(at := Failed, timer := false, error := ETIMEOUT))
        else s
      case Continue(t) => if task.at in {Granted, Failed} then Moved(s, t, task.(at := Idle)) else s
  }

  lemma NextKeeps(s: State, c: Command)
    requires Broken(s) == {}
    ensures Broken(Next(s, c)) == {}
  {
    if c.t in s.tasks {
      var task := s.tasks[c.t];
      match c {
        case Acquiring(t, time) => if task.at.Idle? { TakeKeeps(s, t, time); }
        case Releasing(t) => if task.at.Idle? { ReleasingKeeps(s, t); }
        case Expire(t) =>
          if task.at.TakeBlocked? && task.timer { ExpelKeeps(s, t,
              task.(at := Failed, timer := false, error := ETIMEOUT)); }
        case Continue(t) => if task.at in {Granted, Failed} { MoveKeeps(s, t, task.(at := Idle)); }
      }
    }
  }

  /** A new mutex (rt_mutex_init) among threads that are doing nothing with it. */
  ghost function Fresh(tasks: Tasks): State {
    State(1, Nobody, NO_PRIORITY, 0, [], tasks, map t | t in tasks :: tasks[t].priority,
          map t | t in tasks :: 0, map[], 0)
  }

  lemma FreshIsWhole(tasks: Tasks)
    requires forall t :: t in tasks ==> tasks[t].at == Idle
    ensures Broken(Fresh(tasks)) == {} && Exact(Fresh(tasks))
  {
    assert At(tasks, TakeBlocked) == {};
    AllIntact(Fresh(tasks));
  }

  /** The state a run of steps leads to. */
  ghost function After(tasks: Tasks, schedule: seq<Command>): State {
    if schedule == [] then Fresh(tasks)
    else Next(After(tasks, schedule[..|schedule| - 1]), schedule[|schedule| - 1])
  }

  /** The invariant holds in every state any run leads to. */
  lemma {:induction false} AlwaysWhole(tasks: Tasks, schedule: seq<Command>)
    requires forall t :: t in tasks ==> tasks[t].at == Idle
    ensures Broken(After(tasks, schedule)) == {}
  {
    if schedule == [] {
      FreshIsWhole(tasks);
    } else {
      AlwaysWhole(tasks, schedule[..|schedule| - 1]);
      NextKeeps(After(tasks, schedule[..|schedule| - 1]), schedule[|schedule| - 1]);
    }
  }

  lemma NextExact(s: State, c: Command)
    requires Broken(s) == {} && Exact(s) && !c.Expire?
    ensures Exact(Next(s, c))
  {
    if c.t in s.tasks {
      var task := s.tasks[c.t];
      Bounds(s);
      match c {
        case Acquiring(t, time) =>
          if task.at.Idle? {
            StepsExact(s, t, task.(error := EOK));
            StepsExact(s, t, task.(error := EOK, at := TakeBlocked, timer := time > 0));
            StaysExact(s, t, task.(error := EOK));
            StaysExact(s, t, task.(error := ETIMEOUT));
          }
        case Releasing(t) =>
          if task.at.Idle? {
            StepsExact(s, t, task.(priority := s.originalPriority));
            StaysExact(s, t, task.(error := ERROR));
            StaysExact(s, t, task);
          }
        case Continue(t) => if task.at in {Granted, Failed} { StaysExact(s, t, task.(at := Idle)); }
      }
    }
  }

  /** A thread that does not wait moves on without changing anybody's priority. */
  lemma StaysExact(s: State, t: Thread, task: Task<Locals>)
    requires Broken(s) == {} && Exact(s) && t in s.tasks && s.tasks[t].at != TakeBlocked
    requires task.priority == s.tasks[t].priority
    ensures Exact(Moved(s, t, task))
    ensures forall hold :: Exact(Counted(s, t, task, hold))
  {
    Intact(s);
    if s.wait != [] {
      FirstWaiter(s);
    }
  }

  /** So in every run without timeouts the owner's priority is exactly the one inheritance
      asks for. */
  lemma {:induction false} ExactWithoutTimeouts(tasks: Tasks, schedule: seq<Command>)
    requires forall t :: t in tasks ==> tasks[t].at == Idle
    requires forall i :: 0 <= i < |schedule| ==> !schedule[i].Expire?
    ensures Exact(After(tasks, schedule))
  {
    if schedule == [] {
      FreshIsWhole(tasks);
    } else {
      var before := schedule[..|schedule| - 1];
      ExactWithoutTimeouts(tasks, before);
      AlwaysWhole(tasks, before);
      NextExact(After(tasks, before), schedule[|schedule| - 1]);
    }
  }

  lemma AfterOneMore(tasks: Tasks, front: seq<Command>, c: Command)
    ensures After(tasks, front + [c]) == Next(After(tasks, front), c)
  {
    assert (front + [c])[..|front|] == front;
  }

  // Who has taken it how often, by what the callers were told

  /** What a step returns to a caller; Proceeding if no call returns. */
  ghost function Answer(s: State, c: Command): Outcome {
    if c.t !in s.tasks then Proceeding
    else
      var at := s.tasks[c.t].at;
      match c
      case Acquiring(t, time) =>
        if !at.Idle? then Proceeding
        else if s.owner == Held(t) then Returned(if s.hold < HOLD_MAX then EOK else EFULL)
        else if s.owner == Nobody then Returned(EOK)
        else if time == 0 then Returned(ETIMEOUT) else Suspended
      case Releasing(t) => if at.Idle? then Returned(if s.owner == Held(t) then EOK else ERROR) else Proceeding
      case Expire(_) => Proceeding
      case Continue(t) => if at.Granted? then Returned(EOK) else if at.Failed? then Returned(s.tasks[t].error)
                          else Proceeding
  }

  ghost function Answers(tasks: Tasks, schedule: seq<Command>): (answers: seq<Outcome>)
    ensures |answers| == |schedule|
  {
    if schedule == [] then []
    else
      var front := schedule[..|schedule| - 1];
      Answers(tasks, front) + [Answer(After(tasks, front), schedule[|schedule| - 1])]
  }

  /** One successful take more, at once or after a suspension, or one successful release. */
  function Balanced(c: Command, r: Outcome, t: Thread): int {
    if c.t != t || r != Returned(EOK) then 0
    else match c
      case Acquiring(_, _) => 1
      case Continue(_) => 1
      case Releasing(_) => -1
      case Expire(_) => 0
  }

  /** The takes of thread t that succeeded, less its releases that did. */
  function Balance(schedule: seq<Command>, answers: seq<Outcome>, t: Thread): int
    requires |schedule| == |answers|
  {
    if schedule == [] then 0
    else
      var n := |schedule| - 1;
      Balance(schedule[..n], answers[..n], t) + Balanced(schedule[n], answers[n], t)
  }

  /** A thread that was handed the mutex but has not returned from its take. */
  ghost function Pending(s: State, t: Thread): int {
    if t in s.tasks && s.tasks[t].at == Granted then 1 else 0
  }

  ghost function Holding(s: State, t: Thread): nat {
    if s.owner == Held(t) then s.hold else 0
  }

  /** Threads that fail and will be told that they do not, or are granted what they do not own. */
  ghost function Misled(s: State): set<Thread> {
    set t | t in s.tasks && ((s.tasks[t].at == Failed && s.tasks[t].error == EOK)
                             || (s.tasks[t].at == Granted && s.owner != Held(t)))
  }

  lemma TakeBalances(s: State, u: Thread, time: int, t: Thread)
    requires Broken(s) == {} && t in s.tasks && u in s.tasks && s.tasks[u].at == Idle
    ensures var s' := AfterTake(s, u, time);
            Holding(s', t) - Pending(s', t) ==
            Holding(s, t) - Pending(s, t) + Balanced(Acquiring(u, time), Answer(s, Acquiring(u, time)), t)
  {
    Bounds(s);
  }

  lemma ReleaseBalances(s: State, u: Thread, t: Thread)
    requires Broken(s) == {} && t in s.tasks && u in s.tasks && s.tasks[u].at == Idle
    ensures var s' := AfterRelease(s, u);
            Holding(s', t) - Pending(s', t) ==
            Holding(s, t) - Pending(s, t) + Balanced(Releasing(u), Answer(s, Releasing(u)), t)
  {
    Bounds(s);
    if s.wait != [] {
      FirstWaiter(s);
    }
  }

  lemma NextBalances(s: State, c: Command, t: Thread)
    requires Broken(s) == {} && t in s.tasks && Misled(s) == {}
    ensures Holding(Next(s, c), t) - Pending(Next(s, c), t) ==
            Holding(s, t) - Pending(s, t) + Balanced(c, Answer(s, c), t)
  {
    assert t !in Misled(s);
    if c.t in s.tasks && s.tasks[c.t].at == Idle {
      match c {
        case Acquiring(u, time) => TakeBalances(s, u, time, t);
        case Releasing(u) => ReleaseBalances(s, u, t);
        case Expire(_) =>
        case Continue(_) =>
      }
    }
  }

  lemma ReleaseHonest(s: State, t: Thread, x: Thread)
    requires Broken(s) == {} && Misled(s) == {} && t in s.tasks && s.tasks[t].at == Idle && x in s.tasks
    ensures x !in Misled(AfterRelease(s, t))
  {
    Bounds(s);
    if s.wait != [] {
      FirstWaiter(s);
    }
    assert x !in Misled(s);
  }

  lemma NextHonest(s: State, c: Command)
    requires Broken(s) == {} && Misled(s) == {}
    ensures Misled(Next(s, c)) == {}
  {
    Bounds(s);
    var s' := Next(s, c);
    NextThreads(s, c);
    forall x | x in s'.tasks ensures x !in Misled(s') {
      assert x !in Misled(s);
      if c.Releasing? && c.t in s.tasks && s.tasks[c.t].at == Idle {
        ReleaseHonest(s, c.t, x);
      }
    }
  }

  lemma {:induction false} AlwaysHonest(tasks: Tasks, schedule: seq<Command>)
    requires forall t :: t in tasks ==> tasks[t].at == Idle
    ensures Misled(After(tasks, schedule)) == {} && After(tasks, schedule).tasks.Keys == tasks.Keys
    ensures After(tasks, schedule).own == Fresh(tasks).own
  {
    if schedule != [] {
      var front := schedule[..|schedule| - 1];
      AlwaysHonest(tasks, front);
      AlwaysWhole(tasks, front);
      NextHonest(After(tasks, front), schedule[|schedule| - 1]);
      NextThreads(After(tasks, front), schedule[|schedule| - 1]);
    }
  }

  lemma NextThreads(s: State, c: Command)
    requires Broken(s) == {}
    ensures Next(s, c).tasks.Keys == s.tasks.Keys && Next(s, c).own == s.own
  {
    Bounds(s);
    if s.wait != [] {
      FirstWaiter(s);
    }
  }

  /** In every run the mutex is held by a thread as often as it was told that it took the mutex
      and has not released it since, counting a take that was granted but has not returned; so
      the owner is the one thread with takes left, and nobody else has any. */
  lemma {:induction false} TakesBalance(tasks: Tasks, schedule: seq<Command>, t: Thread)
    requires (forall x :: x in tasks ==> tasks[x].at == Idle) && t in tasks
    ensures var s := After(tasks, schedule);
            && Balance(schedule, Answers(tasks, schedule), t) + Pending(s, t) == Holding(s, t)
            && (s.owner == Held(t) <==> Holding(s, t) > 0) && (Pending(s, t) > 0 ==> s.owner == Held(t))
            && t in s.takes && s.takes[t] == Holding(s, t)
  {
    AlwaysWhole(tasks, schedule);
    Bounds(After(tasks, schedule));
    AlwaysHonest(tasks, schedule);
    Intact(After(tasks, schedule));
    ThreadFacts(After(tasks, schedule), t);
    assert t !in Misled(After(tasks, schedule));
    if schedule != [] {
      var front, s := schedule[..|schedule| - 1], After(tasks, schedule[..|schedule| - 1]);
      TakesBalance(tasks, front, t);
      AlwaysHonest(tasks, front);
      AlwaysWhole(tasks, front);
      NextBalances(s, schedule[|schedule| - 1], t);
      assert Answers(tasks, schedule)[..|schedule| - 1] == Answers(tasks, front);
    }
  }

  /** The owner loses the mutex only by a successful release that leaves it no takes. */
  lemma OwnerLeaves(tasks: Tasks, schedule: seq<Command>, t: Thread)
    requires (forall x :: x in tasks ==> tasks[x].at == Idle) && t in tasks && schedule != []
    requires After(tasks, schedule[..|schedule| - 1]).owner == Held(t) && After(tasks, schedule).owner != Held(t)
    ensures schedule[|schedule| - 1] == Releasing(t) && Balance(schedule, Answers(tasks, schedule), t) == 0
    ensures Answers(tasks, schedule)[|schedule| - 1] == Returned(EOK)
  {
    var front := schedule[..|schedule| - 1];
    AlwaysHonest(tasks, front);
    AlwaysWhole(tasks, front);
    Bounds(After(tasks, front));
    TakesBalance(tasks, schedule, t);
    if After(tasks, front).wait != [] {
      FirstWaiter(After(tasks, front));
    }
  }

  const SLOW: Task<Locals> := Task(Idle, 5, false, EOK, 0, None)
  const FAST: Task<Locals> := Task(Idle, 2, false, EOK, 0, None)

  lemma WaiterBoosts(tasks: Tasks)
    requires tasks == map[0 := SLOW, 1 := FAST]
    ensures var s := After(tasks, [Acquiring(0, -1), Acquiring(1, 10)]);
            && s.owner == Held(0) && s.own == map[0 := 5, 1 := 2] && s.wait == [1] && 0 in s.tasks && 1 in s.tasks
            && s.tasks[0].priority == 2 && s.tasks[1].at == TakeBlocked && s.tasks[1].timer
  {
    AfterOneMore(tasks, [], Acquiring(0, -1));
    AfterOneMore(tasks, [Acquiring(0, -1)], Acquiring(1, 10));
    assert [] + [Acquiring(0, -1)] == [Acquiring(0, -1)];
    assert [Acquiring(0, -1)] + [Acquiring(1, 10)] == [Acquiring(0, -1), Acquiring(1, 10)];
    assert After(tasks, [Acquiring(0, -1)]) == Acquired(Fresh(tasks), 0, tasks[0]);
  }

  /** With a timeout it need not be: a thread of priority 5 takes the mutex, one of priority 2
      waits for it and times out, and the owner goes on at priority 2 with nobody waiting. */
  lemma BoostOutlivesWaiter(tasks: Tasks)
    requires tasks == map[0 := SLOW, 1 := FAST]
    ensures var s := After(tasks, [Acquiring(0, -1), Acquiring(1, 10), Expire(1)]);
            && s.owner == Held(0) && s.own == map[0 := 5, 1 := 2] && s.wait == []
            && 0 in s.tasks && s.tasks[0].priority == 2 && !Exact(s)
  {
    WaiterBoosts(tasks);
    AfterOneMore(tasks, [Acquiring(0, -1), Acquiring(1, 10)], Expire(1));
    assert [Acquiring(0, -1), Acquiring(1, 10)] + [Expire(1)] == [Acquiring(0, -1), Acquiring(1, 10), Expire(1)];
    assert Without([1], 1) == [];
  }

  /** The threads that have waited since the present owner acquired the mutex, those that gave
      up included. */
  ghost function Waited(tasks: Tasks, schedule: seq<Command>): set<Thread> {
    if schedule == [] then {}
    else
      var front, s := schedule[..|schedule| - 1], After(tasks, schedule);
      (if s.owner == After(tasks, front).owner then Waited(tasks, front) else {}) + Elements(s.wait)
  }

  /** p is the most urgent of the owner's own priority and those of the threads in lenders. */
  ghost predicate MostUrgent(p: nat, own: map<Thread, nat>, o: Thread, lenders: set<Thread>) {
    && o in own && p <= own[o] && (forall w :: w in lenders ==> w in own && p <= own[w])
    && (p == own[o] || exists w :: w in lenders && w in own && own[w] == p)
  }

  /** The owner runs as urgently as the most urgent thread that has waited. */
  ghost predicate Lent(s: State, lenders: set<Thread>) {
    s.owner.Held? ==>
      && Elements(s.wait) <= lenders && s.owner.thread in s.tasks
      && MostUrgent(s.tasks[s.owner.thread].priority, s.own, s.owner.thread, lenders)
  }

  lemma LentMoved(s: State, t: Thread, task: Task<Locals>, lenders: set<Thread>)
    requires Broken(s) == {} && Lent(s, lenders) && t in s.tasks && task.priority == s.tasks[t].priority
    ensures Lent(Moved(s, t, task), lenders) && Lent(Expelled(s, t, task), lenders)
    ensures forall hold :: Lent(Counted(s, t, task, hold), lenders)
  {
    Intact(s);
    WithoutFacts(s.wait, t);
  }

  lemma LentQueued(s: State, t: Thread, task: Task<Locals>, lenders: set<Thread>)
    requires Broken(s) == {} && Lent(s, lenders) && t in s.tasks && s.tasks[t].at != TakeBlocked
    requires s.owner.Held? && s.owner != Held(t) && task.priority == s.tasks[t].priority && task.at == TakeBlocked
    ensures Elements(Queued(s, t, task).wait) == Elements(s.wait) + {t} && Lent(Queued(s, t, task), lenders + {t})
  {
    Intact(s);
    ThreadFacts(s, t);
    OwnerFacts(s);
    assert t !in Elements(s.wait);
    EnqueuedFacts(s.wait, Queued(s, t, task).tasks, t, Prio);
    var p := s.tasks[s.owner.thread].priority;
    if p <= task.priority && p != s.own[s.owner.thread] {
      var w :| w in lenders && w in s.own && s.own[w] == p;
      assert w in lenders + {t};
    }
  }

  lemma LentFirst(s: State, t: Thread, task: Task<Locals>)
    requires Broken(s) == {} && t in s.tasks
    ensures s.owner == Nobody && task.priority == s.tasks[t].priority ==> Lent(Acquired(s, t, task), {})
    ensures s.wait != [] && s.owner == Held(t) ==>
              s.wait[0] in s.tasks && Lent(HandedOver(s, t, task), Elements(s.wait[1..]))
  {
    Intact(s);
    ThreadFacts(s, t);
    if s.wait != [] {
      FirstWaiter(s);
      forall w | w in Elements(s.wait[1..])
        ensures w in s.own && s.tasks[s.wait[0]].priority <= s.own[w]
      {
        var i :| 0 < i < |s.wait| && s.wait[i] == w;
        assert w in Elements(s.wait);
        InOrder(s.wait, s.tasks, s.since, 0, i);
        OwnerMostUrgent(s, i);
        ThreadFacts(s, w);
      }
    }
  }

  lemma LentTake(s: State, t: Thread, time: int, lenders: set<Thread>)
    requires Broken(s) == {} && Lent(s, lenders) && t in s.tasks && s.tasks[t].at == Idle
    ensures var s' := AfterTake(s, t, time);
            Lent(s', (if s'.owner == s.owner then lenders else {}) + Elements(s'.wait))
  {
    var task := s.tasks[t].(error := EOK);
    Bounds(s);
    LentFirst(s, t, task);
    LentMoved(s, t, task, lenders);
    LentMoved(s, t, task.(error := ETIMEOUT), lenders);
    if s.owner.Held? {
      assert lenders + Elements(s.wait) == lenders;
      if s.owner != Held(t) {
        LentQueued(s, t, task.(at := TakeBlocked, timer := time > 0), lenders);
        assert lenders + (Elements(s.wait) + {t}) == lenders + {t};
      }
    }
  }

  lemma LentRelease(s: State, t: Thread, lenders: set<Thread>)
    requires Broken(s) == {} && Lent(s, lenders) && t in s.tasks && s.tasks[t].at == Idle
    ensures var s' := AfterRelease(s, t);
            Lent(s', (if s'.owner == s.owner then lenders else {}) + Elements(s'.wait))
  {
    Bounds(s);
    LentMoved(s, t, s.tasks[t].(error := ERROR), lenders);
    LentMoved(s, t, s.tasks[t], lenders);
    LentFirst(s, t, s.tasks[t].(priority := s.originalPriority));
    if s.owner.Held? {
      assert lenders + Elements(s.wait) == lenders;
      if s.wait != [] {
        FirstWaiter(s);
        assert {} + Elements(s.wait[1..]) == Elements(s.wait[1..]);
      }
    }
  }

  lemma LentNext(s: State, c: Command, lenders: set<Thread>)
    requires Broken(s) == {} && Lent(s, lenders)
    ensures var s' := Next(s, c); Lent(s', (if s'.owner == s.owner then lenders else {}) + Elements(s'.wait))
  {
    Intact(s);
    if s.owner.Held? {
      assert lenders + Elements(s.wait) == lenders;
    }
    if c.t in s.tasks {
      var task := s.tasks[c.t];
      match c {
        case Acquiring(t, time) => if task.at.Idle? { LentTake(s, t, time, lenders); }
        case Releasing(t) => if task.at.Idle? { LentRelease(s, t, lenders); }
        case Expire(t) =>
          LentMoved(s, t, task.(at := Failed, timer := false, error := ETIMEOUT), lenders);
          WithoutFacts(s.wait, t);
          if s.owner.Held? {
            assert lenders + Elements(Without(s.wait, t)) == lenders;
          }
        case Continue(t) => LentMoved(s, t, task.(at := Idle), lenders);
      }
    }
  }

  /** In every run the owner's priority is the most urgent of its own and of those of all
      threads that have waited since it acquired the mutex, timed out or not. */
  lemma {:induction false} PriorityLent(tasks: Tasks, schedule: seq<Command>)
    requires forall t :: t in tasks ==> tasks[t].at == Idle
    ensures Lent(After(tasks, schedule), Waited(tasks, schedule))
  {
    if schedule != [] {
      var front := schedule[..|schedule| - 1];
      PriorityLent(tasks, front);
      AlwaysWhole(tasks, front);
      LentNext(After(tasks, front), schedule[|schedule| - 1], Waited(tasks, front));
    }
  }

  // The mutex

  class Mutex {
    var value: nat
    var owner: Owner
    var originalPriority: nat
    var hold: nat
    var wait: seq<Thread>
    var tasks: Tasks
    ghost var own: map<Thread, nat>
    ghost var takes: map<Thread, nat>
    ghost var since: map<Thread, nat>
    ghost var clock: nat

    ghost function Now(): State
      reads this
    {
      State(value, owner, originalPriority, hold, wait, tasks, own, takes, since, clock)
    }

    ghost predicate Valid()
      reads this
    {
      Broken(Now()) == {}
    }

    /** rt_mutex_init. */
    constructor (tasks: Tasks)
      requires forall t :: t in tasks ==> tasks[t].at == Idle
      ensures Valid() && Now() == Fresh(tasks)
    {
      value, owner, originalPriority, hold := 1, Nobody, NO_PRIORITY, 0;
      wait := [];
      this.tasks := tasks;
      own := map t | t in tasks :: tasks[t].priority;
      takes := map t | t in tasks :: 0;
      since, clock := map[], 0;
      new;
      FreshIsWhole(tasks);
    }

    /** rt_mutex_take, up to the suspension. */
    method Take(t: Thread, time: int) returns (r: Outcome)
      requires Valid() && t in tasks && tasks[t].at == Idle
      modifies this
      ensures Valid()
      ensures Now() == AfterTake(old(Now()), t, time)
      ensures r == if old(owner) == Held(t) then Returned(if old(hold) < HOLD_MAX then EOK else EFULL)
                   else if old(owner) == Nobody then Returned(EOK)
                   else if time == 0 then Returned(ETIMEOUT) else Suspended
      ensures r == Suspended ==>
                t in wait && tasks[t] == old(tasks)[t].(at := TakeBlocked, timer := time > 0, error := EOK)
    {
      ghost var s := Now();
      Bounds(s);
      var task := tasks[t].(error := EOK);
      if owner == Held(t) {
        r := TakeAgain(t, task);
        return;
      }
      if value > 0 {
        Acquire(t, task);
        return Returned(EOK);
      }
      if time == 0 {
        task := task.(error := ETIMEOUT);
        MoveKeeps(s, t, task);
        tasks := tasks[t := task];
        assert Now() == Moved(s, t, task);
        return Returned(ETIMEOUT);
      }
      Queue(t, task.(at := TakeBlocked, timer := time > 0));
      r := Suspended;
    }

    /** The branch of rt_mutex_take for the owner itself. */
    method TakeAgain(t: Thread, task: Task<Locals>) returns (r: Outcome)
      requires Valid() && t in tasks && tasks[t].at == Idle && owner == Held(t) && task == tasks[t].(error := EOK)
      modifies this
      ensures Valid() && r == Returned(if old(hold) < HOLD_MAX then EOK else EFULL)
      ensures Now() == if old(hold) < HOLD_MAX then Counted(old(Now()), t, task, old(hold) + 1)
              else Moved(old(Now()), t, task)
    {
      ghost var s := Now();
      if hold < HOLD_MAX {
        CountKeeps(s, t, task, hold + 1);
        hold := hold + 1;
        tasks, takes := tasks[t := task], takes[t := hold];
        assert Now() == Counted(s, t, task, s.hold + 1);
        return Returned(EOK);
      }
      MoveKeeps(s, t, task);
      tasks := tasks[t := task];
      assert Now() == Moved(s, t, task);
      r := Returned(EFULL);
    }

    /** The branch of rt_mutex_take that finds the mutex free. */
    method Acquire(t: Thread, task: Task<Locals>)
      requires Valid() && t in tasks && tasks[t].at == Idle && owner == Nobody
      requires task.at == Idle && task.priority == tasks[t].priority
      modifies this
      ensures Valid() && Now() == Acquired(old(Now()), t, task)
    {
      ghost var s := Now();
      Bounds(s);
      AcquireKeeps(s, t, task);
      tasks := tasks[t := task];
      value := value - 1;
      owner, originalPriority := Held(t), tasks[t].priority;
      hold := hold + 1;
      takes := takes[t := 1];
      assert Now() == Acquired(s, t, task);
    }

    /** The branch of rt_mutex_take that suspends, after raising the owner. */
    method Queue(t: Thread, task: Task<Locals>)
      requires Valid() && t in tasks && tasks[t].at == Idle && owner.Held? && owner != Held(t)
      requires task.at == TakeBlocked && task.priority == tasks[t].priority
      modifies this
      ensures Valid() && Now() == Queued(old(Now()), t, task) && t in wait && t in tasks && tasks[t] == task
    {
      ghost var s := Now();
      QueueKeeps(s, t, task);
      OwnerFacts(s);
      var o := owner.thread;
      if tasks[t].priority < tasks[o].priority {
        tasks := tasks[o := tasks[o].(priority := tasks[t].priority)];
      }
      tasks := tasks[t := task];
      wait := Suspend(wait, tasks, t, Prio);
      since, clock := since[t := clock], clock + 1;
      assert Now() == Queued(s, t, task);
      Intact(Now());
      assert t in Elements(wait);
    }

    /** A thread that was handed the mutex returns from its take. */
    method Taken(t: Thread) returns (r: Outcome)
      requires Valid() && t in tasks && tasks[t].at == Granted
      modifies this`tasks
      ensures Valid() && r == Returned(EOK) && tasks == old(tasks)[t := old(tasks)[t].(at := Idle)]
    {
      ghost var s := Now();
      var task := tasks[t].(at := Idle);
      MoveKeeps(s, t, task);
      tasks := tasks[t := task];
      assert Now() == Moved(s, t, task);
      r := Returned(EOK);
    }

    /** A thread resumed with an error number returns it. */
    method Fail(t: Thread) returns (r: Outcome)
      requires Valid() && t in tasks && tasks[t].at == Failed
      modifies this`tasks
      ensures Valid() && r == Returned(old(tasks)[t].error) && tasks == old(tasks)[t := old(tasks)[t].(at := Idle)]
    {
      ghost var s := Now();
      r := Returned(tasks[t].error);
      var task := tasks[t].(at := Idle);
      MoveKeeps(s, t, task);
      tasks := tasks[t := task];
      assert Now() == Moved(s, t, task);
    }

    /** A suspended thread's timer fires (rt_thread_timeout). */
    method Timeout(t: Thread)
      requires Valid() && t in tasks && tasks[t].at == TakeBlocked && tasks[t].timer
      modifies this`tasks, this`wait
      ensures Valid()
      ensures Now() == Expelled(old(Now()), t, old(tasks)[t].(at := Failed, timer := false, error := ETIMEOUT))
    {
      ghost var s := Now();
      var task := tasks[t].(at := Failed, timer := false, error := ETIMEOUT);
      ExpelKeeps(s, t, task);
      tasks, wait := tasks[t := task], Without(wait, t);
      assert Now() == Expelled(s, t, task);
    }

    /** rt_mutex_release. */
    method Release(t: Thread) returns (r: Outcome)
      requires Valid() && t in tasks && tasks[t].at == Idle
      modifies this
      ensures Valid()
      ensures Now() == AfterRelease(old(Now()), t) && r == Returned(if old(owner) == Held(t) then EOK else ERROR)
      ensures old(owner) != Held(t) || old(hold) > 1 ==> owner == old(owner) && wait == old(wait)
      ensures old(owner) == Held(t) && old(hold) == 1 ==>
                if old(wait) == [] then owner == Nobody && wait == []
                else
                  && owner == Held(old(wait)[0]) && wait == old(wait)[1..]
                  && old(wait)[0] in tasks && tasks[old(wait)[0]].at == Granted
    {
      ghost var s := Now();
      Bounds(s);
      if owner != Held(t) {
        var task := tasks[t].(error := ERROR);
        MoveKeeps(s, t, task);
        tasks := tasks[t := task];
        assert Now() == Moved(s, t, task);
        return Returned(ERROR);
      }
      OwnerFacts(s);
      if hold > 1 {
        CountKeeps(s, t, tasks[t], hold - 1);
        hold := hold - 1;
        takes := takes[t := hold];
        assert Now() == Counted(s, t, tasks[t], s.hold - 1);
        return Returned(EOK);
      }
      r := LastRelease(t);
    }

    /** The last release: back to the original priority, and on to the first waiter. */
    method LastRelease(t: Thread) returns (r: Outcome)
      requires Valid() && t in tasks && tasks[t].at == Idle && owner == Held(t) && hold == 1
      modifies this
      ensures Valid() && r == Returned(EOK) && Now() == AfterRelease(old(Now()), t)
      ensures if old(wait) == [] then owner == Nobody && wait == []
              else
                && owner == Held(old(wait)[0]) && wait == old(wait)[1..]
                && old(wait)[0] in tasks && tasks[old(wait)[0]].at == Granted
    {
      ghost var s := Now();
      OwnerFacts(s);
      ghost var task := tasks[t].(priority := originalPriority);
      hold := hold - 1;
      if originalPriority != tasks[t].priority {
        tasks := tasks[t := tasks[t].(priority := originalPriority)];
      }
      assert tasks == s.tasks[t := task];
      if wait != [] {
        HandOverKeeps(s, t, task);
        var thread := wait[0];
        owner, originalPriority := Held(thread), tasks[thread].priority;
        if hold < HOLD_MAX {
          hold := hold + 1;
        } else {
          return Returned(EFULL);
        }
        takes := takes[t := 0][thread := 1];
        tasks, wait := tasks[thread := tasks[thread].(at := Granted, timer := false)], wait[1..];
        assert Now() == HandedOver(s, t, task);
      } else {
        ReleaseKeeps(s, t, task);
        if value < VALUE_MAX {
          value := value + 1;
        } else {
          return Returned(EFULL);
        }
        owner, originalPriority := Nobody, NO_PRIORITY;
        takes := takes[t := 0];
        assert Now() == Released(s, t, task);
      }
      r := Returned(EOK);
    }

    /** One step of some thread, if the thread is there; otherwise nothing. */
    method Perform(c: Command) returns (r: Outcome)
      requires Valid()
      modifies this
      ensures Valid() && Now() == Next(old(Now()), c) && r == Answer(old(Now()), c)
    {
      r := Proceeding;
      if c.t !in tasks {
        return;
      }
      var at := tasks[c.t].at;
      match c {
        case Acquiring(t, time) => if at.Idle? { r := Take(t, time); }
        case Releasing(t) => if at.Idle? { r := Release(t); }
        case Expire(t) => if at.TakeBlocked? && tasks[t].timer { Timeout(t); }
        case Continue(t) => if at.Granted? { r := Taken(t); } else if at.Failed? { r := Fail(t); }
      }
    }
  }

  lemma Priorities(s: State)
    requires Broken(s) == {}
    ensures forall t :: t in s.tasks ==>
              t in s.own && if s.owner == Held(t) then s.tasks[t].priority <= s.own[t]
              else s.tasks[t].priority == s.own[t]
    ensures forall w :: w in s.wait ==>
              && s.owner.Held? && s.owner.thread in s.tasks && w in s.tasks
              && s.tasks[s.owner.thread].priority <= s.tasks[w].priority
  {
    Intact(s);
    forall t | t in s.tasks
      ensures t in s.own && if s.owner == Held(t) then s.tasks[t].priority <= s.own[t]
              else s.tasks[t].priority == s.own[t]
    {
      ThreadFacts(s, t);
    }
    forall w | w in s.wait
      ensures && s.owner.Held? && s.owner.thread in s.tasks && w in s.tasks
              && s.tasks[s.owner.thread].priority <= s.tasks[w].priority
    {
      var i :| 0 <= i < |s.wait| && s.wait[i] == w;
      OwnerMostUrgent(s, i);
    }
  }

  lemma RunFacts(tasks: Tasks, schedule: seq<Command>, s: State)
    requires (forall t :: t in tasks ==> tasks[t].at == Idle) && s == After(tasks, schedule)
    ensures Broken(s) == {} && s.tasks.Keys == tasks.Keys && s.own == Fresh(tasks).own
    ensures forall t :: t in tasks ==>
              && Balance(schedule, Answers(tasks, schedule), t) + Pending(s, t) == Holding(s, t)
              && (s.owner == Held(t) <==> Holding(s, t) > 0)
  {
    AlwaysWhole(tasks, schedule);
    AlwaysHonest(tasks, schedule);
    forall t | t in tasks
      ensures && Balance(schedule, Answers(tasks, schedule), t) + Pending(s, t) == Holding(s, t)
              && (s.owner == Held(t) <==> Holding(s, t) > 0)
    {
      TakesBalance(tasks, schedule, t);
    }
  }

  /** Every interleaving from a new mutex on: a thread owns it exactly while the takes it was told
      of outnumber its releases; one that does not runs at its own priority, and the owner never
      less urgently than its own priority or any waiter's. */
  method Run(tasks: Tasks, schedule: seq<Command>) returns (m: Mutex, answers: seq<Outcome>)
    requires forall t :: t in tasks ==> tasks[t].at == Idle
    ensures m.Valid() && m.Now() == After(tasks, schedule) && m.tasks.Keys == tasks.Keys && |answers| == |schedule|
    ensures forall t :: t in tasks ==>
              && Balance(schedule, answers, t) + Pending(m.Now(), t) == Holding(m.Now(), t)
              && (m.owner == Held(t) <==> Holding(m.Now(), t) > 0)
    ensures forall t :: t in tasks && m.owner != Held(t) ==> m.tasks[t].priority == tasks[t].priority
    ensures forall t :: t in tasks && m.owner == Held(t) ==>
              && m.tasks[t].priority <= tasks[t].priority
              && forall w :: w in m.wait ==> w in m.tasks && m.tasks[t].priority <= m.tasks[w].priority
  {
    m, answers := Execute(tasks, schedule);
    RunFacts(tasks, schedule, m.Now());
    Priorities(m.Now());
  }

  lemma OneMoreAnswer(tasks: Tasks, schedule: seq<Command>, i: nat)
    requires i < |schedule|
    ensures After(tasks, schedule[..i + 1]) == Next(After(tasks, schedule[..i]), schedule[i])
    ensures Answers(tasks, schedule[..i + 1]) ==
            Answers(tasks, schedule[..i]) + [Answer(After(tasks, schedule[..i]), schedule[i])]
  {
    assert schedule[..i + 1][..i] == schedule[..i];
  }

  method Execute(tasks: Tasks, schedule: seq<Command>) returns (m: Mutex, answers: seq<Outcome>)
    requires forall t :: t in tasks ==> tasks[t].at == Idle
    ensures m.Valid() && m.Now() == After(tasks, schedule) && answers == Answers(tasks, schedule)
  {
    m := new Mutex(tasks);
    answers := [];
    for i := 0 to |schedule|
      invariant m.Valid() && fresh(m) && m.Now() == After(tasks, schedule[..i])
      invariant answers == Answers(tasks, schedule[..i])
    {
      OneMoreAnswer(tasks, schedule, i);
      var r := m.Perform(schedule[i]);
      answers := answers + [r];
    }
    assert schedule[..|schedule|] == schedule;
  }
}
