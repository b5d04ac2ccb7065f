/** Suspended-thread lists and calls in progress, shared by the IPC objects (ipc.c). */
module WaitLists {
  import opened Sequences

  type Thread = nat

  /** How a list orders its threads. */
  datatype Flag = Fifo | Prio

  datatype Code = EOK | ERROR | ETIMEOUT | EFULL

  /** Where a thread stands between two atomic regions of an IPC call. */
  datatype Point =
    | Idle
    | SendBlocked | SendWoken | SendCopying | SendLinking | UrgentCopying | UrgentLinking
    | RecvBlocked | RecvWoken | RecvCopying | RecvFreeing
    | TakeBlocked | Granted
    | Failed

  /** A thread: where it stands, its priority (0 is the most urgent), its timer and
      error number, and its local variables. */
  datatype Task<L> = Task(at: Point, priority: nat, timer: bool, error: Code, timeout: int, locals: L)

  /** What one atomic region of a call leads to. */
  datatype Outcome = Suspended | Proceeding | Returned(code: Code)

  /** What is left of a timeout when a suspended thread runs again; a negative one never ends. */
  function Remaining(timeout: int, elapsed: nat): (left: int)
    ensures timeout < 0 ==> left < 0
    ensures timeout >= 0 ==> 0 <= left && (left == 0 <==> elapsed >= timeout)
    ensures left > 0 ==> left + elapsed == timeout
  {
    if timeout <= 0 then timeout else if elapsed >= timeout then 0 else timeout - elapsed
  }

  ghost function At<L>(tasks: map<Thread, Task<L>>, p: Point): set<Thread> {
    set t | t in tasks && tasks[t].at == p
  }

  lemma Stepped<L>(tasks: map<Thread, Task<L>>, t: Thread, task: Task<L>, p: Point)
    ensures At(tasks[t := task], p) == if task.at == p then At(tasks, p) + {t} else At(tasks, p) - {t}
  {
  }

  // Suspending

  /** The position of the first thread strictly less urgent than priority p. */
  function Place<L>(list: seq<Thread>, tasks: map<Thread, Task<L>>, p: nat): (i: nat)
    ensures i <= |list|
  {
    if list == [] || (list[0] in tasks && p < tasks[list[0]].priority) then 0
    else 1 + Place(list[1..], tasks, p)
  }

  ghost function Enqueued<L>(list: seq<Thread>, tasks: map<Thread, Task<L>>, t: Thread, flag: Flag): seq<Thread>
    requires t in tasks
  {
    var i := if flag.Fifo? then |list| else Place(list, tasks, tasks[t].priority);
    list[..i] + [t] + list[i..]
  }

  lemma {:induction false} PlaceIs<L>(list: seq<Thread>, tasks: map<Thread, Task<L>>, p: nat, i: nat)
    requires i <= |list| && Elements(list) <= tasks.Keys
    requires forall j :: 0 <= j < i ==> tasks[list[j]].priority <= p
    requires i < |list| ==> p < tasks[list[i]].priority
    ensures Place(list, tasks, p) == i
  {
    if i > 0 {
      assert forall x :: x in list[1..] ==> x in Elements(list);
      assert list[0] in Elements(list);
      PlaceIs(list[1..], tasks, p, i - 1);
    }
  }

  /** rt_ipc_list_suspend: where thread t joins the list. */
  method Suspend<L>(list: seq<Thread>, tasks: map<Thread, Task<L>>, t: Thread, flag: Flag) returns (after: seq<Thread>)
    requires t in tasks && Elements(list) <= tasks.Keys
    ensures after == Enqueued(list, tasks, t, flag)
    ensures flag.Fifo? ==> after == list + [t]
  {
    if flag.Fifo? {
      return list + [t];
    }
    var n := 0;
    while n < |list|
      invariant n <= |list|
      invariant forall j :: 0 <= j < n ==> list[j] in tasks && tasks[list[j]].priority <= tasks[t].priority
    {
      assert list[n] in Elements(list);
      if tasks[t].priority < tasks[list[n]].priority {
        PlaceIs(list, tasks, tasks[t].priority, n);
        return list[..n] + [t] + list[n..];
      }
      n := n + 1;
    }
    PlaceIs(list, tasks, tasks[t].priority, n);
    after := list + [t];
  }

  lemma EnqueuedFacts<L>(list: seq<Thread>, tasks: map<Thread, Task<L>>, t: Thread, flag: Flag)
    requires t in tasks && t !in list && Distinct(list)
    ensures Elements(Enqueued(list, tasks, t, flag)) == Elements(list) + {t}
    ensures Distinct(Enqueued(list, tasks, t, flag)) && Enqueued(list, tasks, t, flag) != []
  {
    var i := if flag.Fifo? then |list| else Place(list, tasks, tasks[t].priority);
    assert list == list[..i] + list[i..];
    DistinctConcat(list[..i], list[i..]);
    DistinctConcat(list[..i] + [t], list[i..]);
    DistinctConcat(list[..i], [t]);
    var after := Enqueued(list, tasks, t, flag);
    assert forall x :: x in after <==> x in list || x == t;
  }

  /** The others keep their order; in a list without priorities the newcomer is last. */
  lemma EnqueuedKeeps<L>(list: seq<Thread>, tasks: map<Thread, Task<L>>, t: Thread, flag: Flag)
    requires t in tasks && t !in list
    ensures Without(Enqueued(list, tasks, t, flag), t) == list
    ensures flag.Fifo? ==> Enqueued(list, tasks, t, flag) == list + [t]
  {
    var i := if flag.Fifo? then |list| else Place(list, tasks, tasks[t].priority);
    WithoutInserted(list[..i], t, list[i..]);
    assert list[..i] + list[i..] == list;
  }

  /** Most urgent first. */
  ghost predicate Sorted<L>(list: seq<Thread>, tasks: map<Thread, Task<L>>) {
    forall i, j :: 0 <= i < j < |list| && list[i] in tasks && list[j] in tasks
      ==> tasks[list[i]].priority <= tasks[list[j]].priority
  }

  lemma {:induction false} PlaceSplits<L>(list: seq<Thread>, tasks: map<Thread, Task<L>>, p: nat)
    requires Elements(list) <= tasks.Keys && Sorted(list, tasks)
    ensures forall j :: 0 <= j < Place(list, tasks, p) ==> tasks[list[j]].priority <= p
    ensures forall j :: Place(list, tasks, p) <= j < |list| ==> p < tasks[list[j]].priority
  {
    assert forall j :: 0 <= j < |list| ==> list[j] in Elements(list);
    if list != [] && !(p < tasks[list[0]].priority) {
      assert forall x :: x in list[1..] ==> x in Elements(list);
      PlaceSplits(list[1..], tasks, p);
      var i := Place(list, tasks, p);
      forall j | 0 <= j < i ensures tasks[list[j]].priority <= p {
        if j > 0 {
          assert list[j] == list[1..][j - 1];
        }
      }
      forall j | i <= j < |list| ensures p < tasks[list[j]].priority {
        assert list[j] == list[1..][j - 1];
      }
    }
  }

  lemma SortedJoin<L>(list: seq<Thread>, tasks: map<Thread, Task<L>>, t: Thread, p: nat)
    requires t in tasks && p <= |list| && Sorted(list, tasks)
    requires forall j :: 0 <= j < |list| ==>
               list[j] in tasks && (j < p <==> tasks[list[j]].priority <= tasks[t].priority)
    ensures Sorted(list[..p] + [t] + list[p..], tasks)
  {
    var after := list[..p] + [t] + list[p..];
    forall i, j | 0 <= i < j < |after| && after[i] in tasks && after[j] in tasks
      ensures tasks[after[i]].priority <= tasks[after[j]].priority
    {
      assert i != p ==> after[i] == list[if i < p then i else i - 1];
      assert j != p ==> after[j] == list[if j < p then j else j - 1];
    }
  }

  /** Priority order is kept, and the newcomer stands behind its equals. */
  lemma EnqueuedSorted<L>(list: seq<Thread>, tasks: map<Thread, Task<L>>, t: Thread)
    requires t in tasks && Elements(list) <= tasks.Keys && Sorted(list, tasks)
    ensures Sorted(Enqueued(list, tasks, t, Prio), tasks)
    ensures var i := Place(list, tasks, tasks[t].priority);
            && Enqueued(list, tasks, t, Prio) == list[..i] + [t] + list[i..]
            && (forall j :: 0 <= j < |list| && tasks[list[j]].priority == tasks[t].priority ==> j < i)
  {
    PlaceSplits(list, tasks, tasks[t].priority);
    assert forall j :: 0 <= j < |list| ==> list[j] in Elements(list);
    SortedJoin(list, tasks, t, Place(list, tasks, tasks[t].priority));
  }

  // Waking

  /** The thread in front, and nobody else, is ready at point p with its timer stopped. */
  lemma RousedIs<L>(tasks: map<Thread, Task<L>>, list: seq<Thread>, p: Point, t: Thread)
    requires t in tasks
    ensures Roused(tasks, list, p).Keys == tasks.Keys
    ensures var task := Roused(tasks, list, p)[t];
            if list != [] && t == list[0] then
              task == Task(p, tasks[t].priority, false, tasks[t].error, tasks[t].timeout, tasks[t].locals)
            else task == tasks[t]
  {
  }

  lemma {:induction false} FailedThreads<L>(tasks: map<Thread, Task<L>>, list: seq<Thread>)
    ensures AllFailed(tasks, list).Keys == tasks.Keys
    decreases |list|
  {
    if list != [] {
      var x := list[0];
      FailedThreads(if x in tasks then tasks[x := tasks[x].(at := Failed, timer := false, error := ERROR)] else tasks,
                    list[1..]);
    }
  }

  /** Every thread of the list fails with an error number that says so, and nobody else. */
  lemma {:induction false} AllFailedIs<L>(tasks: map<Thread, Task<L>>, list: seq<Thread>, t: Thread)
    requires t in tasks
    ensures AllFailed(tasks, list).Keys == tasks.Keys
    ensures var task := AllFailed(tasks, list)[t];
            if t in list then
              task == Task(Failed, tasks[t].priority, false, ERROR, tasks[t].timeout, tasks[t].locals)
            else task == tasks[t]
    decreases |list|
  {
    if list != [] {
      var x := list[0];
      assert t in list <==> t == x || t in list[1..];
      AllFailedIs(if x in tasks then tasks[x := tasks[x].(at := Failed, timer := false, error := ERROR)] else tasks,
                  list[1..], t);
    }
  }

  /** Nobody's priority changes. */
  ghost predicate SamePriorities<L>(tasks: map<Thread, Task<L>>, tasks': map<Thread, Task<L>>) {
    forall t :: t in tasks ==> t in tasks' && tasks'[t].priority == tasks[t].priority
  }

  lemma SortedSame<L>(list: seq<Thread>, tasks: map<Thread, Task<L>>, tasks': map<Thread, Task<L>>)
    requires Sorted(list, tasks) && Elements(list) <= tasks.Keys && SamePriorities(tasks, tasks')
    ensures Sorted(list, tasks')
  {
    forall x | x in list ensures x in tasks && x in tasks' && tasks'[x].priority == tasks[x].priority {
      assert x in Elements(list);
    }
  }

  lemma SortedPart<L>(list: seq<Thread>, tasks: map<Thread, Task<L>>, i: nat)
    requires Sorted(list, tasks) && i < |list|
    ensures Sorted(list[..i] + list[i + 1..], tasks)
  {
  }

  lemma SortedRest<L>(list: seq<Thread>, tasks: map<Thread, Task<L>>)
    requires Sorted(list, tasks)
    ensures Sorted(Rest(list), tasks)
  {
  }

  lemma SortedWithout<L>(list: seq<Thread>, tasks: map<Thread, Task<L>>, t: Thread)
    requires Sorted(list, tasks)
    ensures Sorted(Without(list, t), tasks)
  {
    if t in list {
      var i := WithoutIs(list, t);
      SortedPart(list, tasks, i);
    } else {
      NotWithout(list, t);
    }
  }

  /** The order depends on nothing but the priorities, and a part of the list is in order too. */
  lemma SortedKept<L>(list: seq<Thread>, tasks: map<Thread, Task<L>>, tasks': map<Thread, Task<L>>, t: Thread)
    requires Sorted(list, tasks) && Elements(list) <= tasks.Keys && SamePriorities(tasks, tasks')
    ensures Sorted(list, tasks') && Sorted(Rest(list), tasks') && Sorted(Without(list, t), tasks')
  {
    SortedSame(list, tasks, tasks');
    SortedRest(list, tasks');
    SortedWithout(list, tasks', t);
  }

  // No lost wakeups

  /** A list of suspended threads holds exactly the threads blocked at p, once each;
      and while it holds any, every item waiting has a woken thread coming for it. */
  ghost predicate Awaits<L>(list: seq<Thread>, tasks: map<Thread, Task<L>>, blocked: Point, woken: Point, items: nat) {
    && Distinct(list) && Elements(list) == At(tasks, blocked)
    && (list != [] ==> items <= |At(tasks, woken)|)
  }

  /** A thread that neither blocks nor unblocks; if it was woken it uses up an item. */
  lemma AwaitsStep<L>(list: seq<Thread>, tasks: map<Thread, Task<L>>, blocked: Point, woken: Point, items: nat,
                   t: Thread, task: Task<L>, items': nat)
    requires Awaits(list, tasks, blocked, woken, items) && t in tasks && blocked != woken
    requires tasks[t].at != blocked && task.at != blocked
    requires items' <= items
    requires tasks[t].at == woken && task.at != woken ==> items == 0 || items' < items
    ensures Awaits(list, tasks[t := task], blocked, woken, items')
  {
    Stepped(tasks, t, task, blocked);
    Stepped(tasks, t, task, woken);
    if tasks[t].at == woken && task.at != woken {
      assert t in At(tasks, woken);
    }
  }

  /** rt_ipc_list_resume on a list that may be empty: the head thread becomes ready at point p. */
  function Rest(list: seq<Thread>): seq<Thread> {
    if list == [] then [] else list[1..]
  }

  function Roused<L>(tasks: map<Thread, Task<L>>, list: seq<Thread>, p: Point): map<Thread, Task<L>> {
    if list == [] || list[0] !in tasks then tasks
    else tasks[list[0] := tasks[list[0]].(at := p, timer := false)]
  }

  /** One item more, and one thread woken for it. */
  lemma AwaitsArrival<L>(list: seq<Thread>, tasks: map<Thread, Task<L>>, blocked: Point, woken: Point, items: nat)
    requires Awaits(list, tasks, blocked, woken, items) && blocked != woken
    ensures Awaits(Rest(list), Roused(tasks, list, woken), blocked, woken, items + 1)
  {
    if list != [] {
      var x := list[0];
      HeadFacts(list);
      var task := tasks[x].(at := woken, timer := false);
      Stepped(tasks, x, task, blocked);
      Stepped(tasks, x, task, woken);
      assert x !in At(tasks, woken);
    }
  }

  /** Waking a thread of the other list. */
  lemma AwaitsOther<L>(list: seq<Thread>, tasks: map<Thread, Task<L>>, blocked: Point, woken: Point, items: nat,
                    other: seq<Thread>, blocked': Point, woken': Point, items': nat)
    requires Awaits(list, tasks, blocked, woken, items) && Awaits(other, tasks, blocked', woken', items')
    requires blocked != woken && blocked !in {blocked', woken'} && woken !in {blocked', woken'}
    ensures Awaits(list, Roused(tasks, other, woken'), blocked, woken, items)
  {
    if other != [] {
      HeadFacts(other);
      var x := other[0];
      var task := tasks[x].(at := woken', timer := false);
      assert x in At(tasks, blocked');
      AwaitsStep(list, tasks, blocked, woken, items, x, task, items);
    }
  }

  /** A thread joining the list: nothing is there for it. */
  lemma AwaitsJoin<L>(list: seq<Thread>, tasks: map<Thread, Task<L>>, blocked: Point, woken: Point, t: Thread,
                      task: Task<L>, flag: Flag)
    requires Awaits(list, tasks, blocked, woken, 0) && blocked != woken
    requires t in tasks && tasks[t].at != blocked && task.at == blocked
    ensures Elements(list) <= tasks.Keys
    ensures Awaits(Enqueued(list, tasks[t := task], t, flag), tasks[t := task], blocked, woken, 0)
  {
    assert t !in At(tasks, blocked);
    assert t !in Elements(list);
    Stepped(tasks, t, task, blocked);
    EnqueuedFacts(list, tasks[t := task], t, flag);
  }

  /** A thread leaving the list before it is woken. */
  lemma AwaitsLeave<L>(list: seq<Thread>, tasks: map<Thread, Task<L>>, blocked: Point, woken: Point, items: nat,
                    t: Thread, task: Task<L>)
    requires Awaits(list, tasks, blocked, woken, items) && blocked != woken
    requires t in tasks && tasks[t].at == blocked && task.at !in {blocked, woken}
    ensures Awaits(Without(list, t), tasks[t := task], blocked, woken, items)
  {
    WithoutFacts(list, t);
    Stepped(tasks, t, task, blocked);
    Stepped(tasks, t, task, woken);
    if list == [] {
      assert Without(list, t) == [];
    }
  }

  /** rt_ipc_list_resume_all: every thread of the list resumes with an error. */
  function AllFailed<L>(tasks: map<Thread, Task<L>>, list: seq<Thread>): map<Thread, Task<L>>
    decreases |list|
  {
    if list == [] then tasks
    else if list[0] !in tasks then AllFailed(tasks, list[1..])
    else AllFailed(tasks[list[0] := tasks[list[0]].(at := Failed, timer := false, error := ERROR)], list[1..])
  }
}
