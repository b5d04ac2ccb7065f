/** Message queues (ipc.c): fixed-size message nodes move between a free list, the
    message list and the threads copying into or out of them. Each method of Queue is
    one region the kernel runs with interrupts disabled, or one unlocked copy, so every
    interleaving of calls is a sequence of method calls.

    The invariant has a few parts; `Broken` is the set of those that fail, and is empty in every
    reachable state. Where a part speaks of all threads, nodes or places, it is the set of
    offenders that is empty, so that a step is proved one of them at a time. */
module MessageQueue {
  import opened DequeHistory
  import opened RtConfig
  import opened Sequences
  import opened WaitLists

  const NIL: int := -1
  /** The largest count and the largest queue a 16-bit field holds. */
  const ENTRY_MAX: nat := 0xffff

  type Message = seq<bv8>

  /** A caller's local variables. */
  datatype Locals = Locals(msg: nat, buffer: Message, size: nat)

  type Tasks = map<Thread, Task<Locals>>

  /** Who a node belongs to. */
  datatype Owner = Spare | Queued | Held(thread: Thread)

  /** A message node: the link, and msgSize bytes behind it. */
  datatype Node = Node(next: int, data: Message)

  type Store = map<nat, Node>

  // Null-terminated lists

  ghost predicate Listed(nodes: Store, head: int, s: seq<nat>)
    decreases |s|
  {
    if s == [] then head == NIL else head == s[0] && s[0] in nodes && Listed(nodes, nodes[s[0]].next, s[1..])
  }

  lemma {:induction false} ListedFrame(nodes: Store, head: int, s: seq<nat>, n: nat, v: Node)
    requires Listed(nodes, head, s) && (n !in s || (n in nodes && nodes[n].next == v.next))
    ensures Listed(nodes[n := v], head, s)
    decreases |s|
  {
    if s != [] {
      ListedFrame(nodes, nodes[s[0]].next, s[1..], n, v);
    }
  }

  lemma LinkedFront(nodes: Store, head: int, s: seq<nat>, n: nat, d: Message)
    requires Listed(nodes, head, s) && n !in s
    ensures Listed(nodes[n := Node(head, d)], n, [n] + s)
  {
    ListedFrame(nodes, head, s, n, Node(head, d));
    assert ([n] + s)[1..] == s;
  }

  /** Linking n behind the last node. */
  lemma {:induction false} LinkedBack(nodes: Store, head: int, s: seq<nat>, n: nat, d: Message)
    requires Listed(nodes, head, s) && Distinct(s) && n !in s && n in nodes && nodes[n].next == NIL
    ensures s == [] ==> Listed(nodes, n, [n])
    ensures s != [] ==> Listed(nodes[s[|s| - 1] := Node(n, d)], head, s + [n])
    decreases |s|
  {
    if s != [] {
      LinkedBack(nodes, nodes[s[0]].next, s[1..], n, d);
      assert (s + [n])[1..] == s[1..] + [n];
      if |s| > 1 {
        assert s[|s| - 1] == s[1..][|s| - 2] && s[|s| - 1] in s[1..];
      } else {
        ListedFrame(nodes, n, [n], s[0], Node(n, d));
        assert s[1..] + [n] == [n];
      }
    }
  }

  function LastOr(s: seq<nat>): int {
    if s == [] then NIL else s[|s| - 1]
  }

  // Ownership of nodes

  ghost function OwnedBy(owner: map<nat, Owner>, o: Owner): set<nat> {
    set n | n in owner && owner[n] == o
  }

  lemma Passed(owner: map<nat, Owner>, n: nat, o: Owner, o': Owner)
    ensures OwnedBy(owner[n := o], o') == if o == o' then OwnedBy(owner, o') + {n} else OwnedBy(owner, o') - {n}
  {
  }

  /** Threads that own a node while the queue is unlocked. */
  predicate Holds(p: Point) {
    p in {SendCopying, SendLinking, UrgentCopying, UrgentLinking, RecvCopying, RecvFreeing}
  }

  /** A sender's message fits. A holder's node is its own; a sent message is in it before it is linked, and a
      received one until it is copied out. */
  ghost predicate HolderAt(limit: nat, t: Thread, task: Task<Locals>, owner: map<nat, Owner>, nodes: Store,
                           promised: map<Thread, Message>)
  {
    && (task.at in {SendBlocked, SendWoken, SendCopying, UrgentCopying} ==> |task.locals.buffer| <= limit)
    && (Holds(task.at) ==>
          var n := task.locals.msg;
          && n in owner && owner[n] == Held(t) && n in nodes
          && (task.at in {SendLinking, UrgentLinking} ==> task.locals.buffer <= nodes[n].data)
          && (task.at == SendLinking ==> nodes[n].next == NIL)
          && (task.at == RecvCopying ==> t in promised && promised[t] <= nodes[n].data))
  }

  ghost function Strays(limit: nat, tasks: Tasks, owner: map<nat, Owner>, nodes: Store,
                        promised: map<Thread, Message>): set<Thread>
  {
    set t | t in tasks && !HolderAt(limit, t, tasks[t], owner, nodes, promised)
  }

  ghost predicate HeldAt(n: nat, tasks: Tasks, owner: map<nat, Owner>)
    requires n in owner
  {
    owner[n].Held? ==>
      owner[n].thread in tasks && Holds(tasks[owner[n].thread].at) && tasks[owner[n].thread].locals.msg == n
  }

  /** Nodes whose owner has forgotten them. */
  ghost function Leaks(tasks: Tasks, owner: map<nat, Owner>): set<nat> {
    set n | n in owner && !HeldAt(n, tasks, owner)
  }

  lemma HolderFacts(limit: nat, tasks: Tasks, owner: map<nat, Owner>, nodes: Store, promised: map<Thread, Message>,
                    t: Thread)
    requires Strays(limit, tasks, owner, nodes, promised) == {} && t in tasks
    ensures HolderAt(limit, t, tasks[t], owner, nodes, promised)
  {
    assert t !in Strays(limit, tasks, owner, nodes, promised);
  }

  /** One thread takes over, writes, or gives up node n. */
  lemma HolderStep(limit: nat, tasks: Tasks, owner: map<nat, Owner>, nodes: Store, promised: map<Thread, Message>,
                   t: Thread, task: Task<Locals>, n: nat, o: Owner, d: Node, p: Message)
    requires Strays(limit, tasks, owner, nodes, promised) == {} && Leaks(tasks, owner) == {}
    requires t in tasks && n in owner
    requires if Holds(tasks[t].at) then tasks[t].locals.msg == n else !owner[n].Held?
    requires if Holds(task.at) then task.locals.msg == n && o == Held(t) else !o.Held?
    requires HolderAt(limit, t, task, owner[n := o], nodes[n := d], promised[t := p])
    ensures Strays(limit, tasks[t := task], owner[n := o], nodes[n := d], promised[t := p]) == {}
    ensures Leaks(tasks[t := task], owner[n := o]) == {}
  {
    var tasks', owner', nodes', promised' := tasks[t := task], owner[n := o], nodes[n := d], promised[t := p];
    HolderFacts(limit, tasks, owner, nodes, promised, t);
    forall x | x in tasks' ensures HolderAt(limit, x, tasks'[x], owner', nodes', promised') {
      if x != t {
        HolderFacts(limit, tasks, owner, nodes, promised, x);
      }
    }
    forall m | m in owner' ensures HeldAt(m, tasks', owner') {
      assert m !in Leaks(tasks, owner);
    }
  }

  /** A thread that holds nothing moves on and still holds nothing. */
  lemma BystanderStep(limit: nat, tasks: Tasks, owner: map<nat, Owner>, nodes: Store, promised: map<Thread, Message>,
                      t: Thread, task: Task<Locals>)
    requires Strays(limit, tasks, owner, nodes, promised) == {} && Leaks(tasks, owner) == {}
    requires t in tasks && !Holds(tasks[t].at) && !Holds(task.at)
    requires task.at in {SendBlocked, SendWoken} ==> |task.locals.buffer| <= limit
    ensures Strays(limit, tasks[t := task], owner, nodes, promised) == {} && Leaks(tasks[t := task], owner) == {}
  {
    var tasks' := tasks[t := task];
    forall x | x in tasks' ensures HolderAt(limit, x, tasks'[x], owner, nodes, promised) {
      if x != t {
        HolderFacts(limit, tasks, owner, nodes, promised, x);
      }
    }
    forall m | m in owner ensures HeldAt(m, tasks', owner) {
      assert m !in Leaks(tasks, owner);
    }
  }

  /** Writing a node nobody holds. */
  lemma HoldersElsewhere(limit: nat, tasks: Tasks, owner: map<nat, Owner>, nodes: Store, promised: map<Thread,
                         Message>, m: nat, v: Node)
    requires Strays(limit, tasks, owner, nodes, promised) == {} && m in owner && !owner[m].Held?
    ensures Strays(limit, tasks, owner, nodes[m := v], promised) == {}
  {
    forall x | x in tasks ensures HolderAt(limit, x, tasks[x], owner, nodes[m := v], promised) {
      HolderFacts(limit, tasks, owner, nodes, promised, x);
    }
  }

  // Contents

  /** Positions where the nodes of the list do not hold the queued messages. */
  ghost function Garbled(nodes: Store, msgs: seq<nat>, q: seq<Message>): set<nat> {
    set i: nat | i < |msgs| && !(i < |q| && msgs[i] in nodes && q[i] <= nodes[msgs[i]].data)
  }

  lemma GarbledNot(nodes: Store, msgs: seq<nat>, q: seq<Message>, i: nat)
    requires Garbled(nodes, msgs, q) == {} && i < |msgs|
    ensures i < |q| && msgs[i] in nodes && q[i] <= nodes[msgs[i]].data
  {
    assert i !in Garbled(nodes, msgs, q);
  }

  lemma PushedBack(nodes: Store, msgs: seq<nat>, q: seq<Message>, n: nat, m: Message)
    requires Garbled(nodes, msgs, q) == {} && |q| == |msgs| && n in nodes && m <= nodes[n].data
    ensures Garbled(nodes, msgs + [n], q + [m]) == {}
  {
    forall i: nat | i < |msgs| ensures i < |q| && msgs[i] in nodes && q[i] <= nodes[msgs[i]].data {
      GarbledNot(nodes, msgs, q, i);
    }
  }

  lemma PushedFront(nodes: Store, msgs: seq<nat>, q: seq<Message>, n: nat, m: Message)
    requires Garbled(nodes, msgs, q) == {} && |q| == |msgs| && n in nodes && m <= nodes[n].data
    ensures Garbled(nodes, [n] + msgs, [m] + q) == {}
  {
    var msgs', q' := [n] + msgs, [m] + q;
    forall i: nat | i < |msgs'| ensures i < |q'| && msgs'[i] in nodes && q'[i] <= nodes[msgs'[i]].data {
      if i > 0 {
        GarbledNot(nodes, msgs, q, i - 1);
      }
    }
  }

  lemma Popped(nodes: Store, msgs: seq<nat>, q: seq<Message>)
    requires Garbled(nodes, msgs, q) == {} && |q| == |msgs| && msgs != []
    ensures msgs[0] in nodes && q[0] <= nodes[msgs[0]].data && Garbled(nodes, msgs[1..], q[1..]) == {}
  {
    GarbledNot(nodes, msgs, q, 0);
    var msgs', q' := msgs[1..], q[1..];
    forall i: nat | i < |msgs'| ensures i < |q'| && msgs'[i] in nodes && q'[i] <= nodes[msgs'[i]].data {
      GarbledNot(nodes, msgs, q, i + 1);
    }
  }

  lemma WrittenElsewhere(nodes: Store, msgs: seq<nat>, q: seq<Message>, n: nat, v: Node)
    requires Garbled(nodes, msgs, q) == {} && (n !in msgs || (n in nodes && nodes[n].data == v.data))
    ensures Garbled(nodes[n := v], msgs, q) == {}
  {
    var nodes' := nodes[n := v];
    forall i: nat | i < |msgs| ensures i < |q| && msgs[i] in nodes' && q[i] <= nodes'[msgs[i]].data {
      GarbledNot(nodes, msgs, q, i);
    }
  }

  /** The message, then whatever the node held behind it. */
  function Overwritten(d: Message, m: Message): (r: Message)
    requires |m| <= |d|
    ensures |r| == |d| && m <= r
  {
    m + d[|m|..]
  }

  ghost function Missized(nodes: Store, size: nat): set<nat> {
    set n | n in nodes && |nodes[n].data| != size
  }

  // The invariant

  /** A queue at one moment, with the bookkeeping of the proof: the two lists as
      sequences, who owns each node, what happened so far, and what each receiver
      took off the queue. */
  datatype State = State(
    msgSize: nat, maxMsgs: nat,
    nodes: Store,
    head: int, tail: int, free: int, entry: nat,
    recvWait: seq<Thread>, sendWait: seq<Thread>, tasks: Tasks,
    msgs: seq<nat>, frees: seq<nat>, owner: map<nat, Owner>,
    history: seq<Event<Message>>, promised: map<Thread, Message>)

  /** The links spell the message list and the free list; head is null iff tail is. */
  ghost predicate Lists(s: State) {
    && Listed(s.nodes, s.head, s.msgs) && Listed(s.nodes, s.free, s.frees)
    && s.tail == LastOr(s.msgs) && s.entry == |s.msgs| && s.maxMsgs <= ENTRY_MAX
  }

  /** Every node is on the free list, on the message list, or held. */
  ghost predicate Nodes(s: State) {
    && Distinct(s.msgs) && Elements(s.msgs) == OwnedBy(s.owner, Queued)
    && Distinct(s.frees) && Elements(s.frees) == OwnedBy(s.owner, Spare)
    && |s.owner| == s.maxMsgs && s.nodes.Keys == s.owner.Keys
    && Missized(s.nodes, s.msgSize) == {}
  }

  /** Held nodes and the threads holding them match one to one. */
  ghost predicate Holders(s: State) {
    Strays(s.msgSize, s.tasks, s.owner, s.nodes, s.promised) == {} && Leaks(s.tasks, s.owner) == {}
  }

  /** The nodes of the list hold what the history says is queued. */
  ghost predicate Contents(s: State) {
    && Legal(s.history) && |Replay(s.history)| == |s.msgs|
    && Garbled(s.nodes, s.msgs, Replay(s.history)) == {}
  }

  /** The parts of the invariant. */
  datatype Part = ListPart | NodePart | HolderPart | ContentPart | RecvPart | SendPart

  ghost predicate Whole(s: State, part: Part) {
    match part
    case ListPart => Lists(s)
    case NodePart => Nodes(s)
    case HolderPart => Holders(s)
    case ContentPart => Contents(s)
    case RecvPart => Awaits(s.recvWait, s.tasks, RecvBlocked, RecvWoken, s.entry)
    case SendPart => Awaits(s.sendWait, s.tasks, SendBlocked, SendWoken, |s.frees|)
  }

  /** The parts of the invariant that s breaks: none, in any reachable state. */
  ghost function Broken(s: State): set<Part> {
    set part: Part | !Whole(s, part)
  }

  lemma Intact(s: State)
    requires Broken(s) == {}
    ensures Lists(s) && Nodes(s) && Holders(s) && Contents(s)
    ensures Awaits(s.recvWait, s.tasks, RecvBlocked, RecvWoken, s.entry)
    ensures Awaits(s.sendWait, s.tasks, SendBlocked, SendWoken, |s.frees|)
  {
    forall part: Part ensures Whole(s, part) {
      assert part !in Broken(s);
    }
    assert Whole(s, ListPart) && Whole(s, NodePart) && Whole(s, HolderPart);
    assert Whole(s, ContentPart) && Whole(s, RecvPart) && Whole(s, SendPart);
  }

  lemma AllIntact(s: State)
    requires Lists(s) && Nodes(s) && Holders(s) && Contents(s)
    requires Awaits(s.recvWait, s.tasks, RecvBlocked, RecvWoken, s.entry)
    requires Awaits(s.sendWait, s.tasks, SendBlocked, SendWoken, |s.frees|)
    ensures Broken(s) == {}
  {
  }

  lemma FreeHead(s: State)
    requires Lists(s) && Nodes(s)
    ensures s.free == NIL <==> s.frees == []
    ensures s.free != NIL ==> s.free >= 0 && s.free in s.nodes && |s.nodes[s.free].data| == s.msgSize
    ensures s.free != NIL ==> s.free in s.owner && s.owner[s.free] == Spare && s.frees[0] == s.free
  {
    if s.frees != [] {
      HeadFacts(s.frees);
      assert s.free !in Missized(s.nodes, s.msgSize);
    }
  }

  lemma FreeFacts(s: State)
    requires Broken(s) == {} && s.free != NIL
    ensures s.free >= 0 && s.free in s.nodes && s.frees != []
  {
    Intact(s);
    FreeHead(s);
  }

  lemma HoldersRoused(limit: nat, tasks: Tasks, owner: map<nat, Owner>, nodes: Store, promised: map<Thread, Message>,
                      list: seq<Thread>, p: Point, p': Point, items: nat)
    requires Strays(limit, tasks, owner, nodes, promised) == {} && Leaks(tasks, owner) == {}
    requires Awaits(list, tasks, p, p', items)
             && ((p == SendBlocked && p' == SendWoken) || (p == RecvBlocked && p' == RecvWoken))
    ensures Strays(limit, Roused(tasks, list, p'), owner, nodes, promised) == {}
            && Leaks(Roused(tasks, list, p'), owner) == {}
  {
    if list != [] {
      HeadFacts(list);
      assert list[0] in At(tasks, p);
      HolderFacts(limit, tasks, owner, nodes, promised, list[0]);
      BystanderStep(limit, tasks, owner, nodes, promised, list[0], tasks[list[0]].(at := p', timer := false));
    }
  }

  // The steps

  /** Taking the first free node for thread t. */
  ghost function Claimed(s: State, t: Thread, task: Task<Locals>): State
    requires s.free in s.nodes && s.frees != []
  {
    s.(free := s.nodes[s.free].next, frees := s.frees[1..], tasks := s.tasks[t := task],
       owner := s.owner[s.free := Held(t)], promised := s.promised[t := []])
  }

  lemma ClaimStore(s: State, t: Thread, task: Task<Locals>)
    requires Lists(s) && Nodes(s) && Contents(s) && s.free != NIL
    ensures s.free in s.nodes && s.frees != []
    ensures var s' := Claimed(s, t, task); Lists(s') && Nodes(s') && Contents(s')
  {
    FreeHead(s);
    HeadFacts(s.frees);
    Passed(s.owner, s.free, Held(t), Spare);
    Passed(s.owner, s.free, Held(t), Queued);
  }

  lemma ClaimHolders(s: State, t: Thread, task: Task<Locals>)
    requires Broken(s) == {} && s.free != NIL && t in s.tasks && s.tasks[t].at in {Idle, SendWoken}
    requires task.at in {SendCopying, UrgentCopying} && task.locals.msg == s.free && |task.locals.buffer| <= s.msgSize
    ensures s.free in s.nodes && s.frees != [] && Holders(Claimed(s, t, task))
  {
    Intact(s);
    FreeHead(s);
    assert s.nodes[s.free := s.nodes[s.free]] == s.nodes;
    HolderStep(s.msgSize, s.tasks, s.owner, s.nodes, s.promised, t, task, s.free, Held(t), s.nodes[s.free], []);
  }

  lemma ClaimTasks(s: State, t: Thread, task: Task<Locals>)
    requires Broken(s) == {} && s.free != NIL && t in s.tasks && s.tasks[t].at in {Idle, SendWoken}
    requires task.at in {SendCopying, UrgentCopying} && task.locals.msg == s.free && |task.locals.buffer| <= s.msgSize
    ensures s.free in s.nodes && s.frees != [] && Broken(Claimed(s, t, task)) == {}
  {
    Intact(s);
    ClaimStore(s, t, task);
    ClaimHolders(s, t, task);
    AwaitsStep(s.recvWait, s.tasks, RecvBlocked, RecvWoken, s.entry, t, task, s.entry);
    AwaitsStep(s.sendWait, s.tasks, SendBlocked, SendWoken, |s.frees|, t, task, |s.frees| - 1);
    AllIntact(Claimed(s, t, task));
  }

  /** A caller that holds no node moves on without touching the queue: its call fails, or returns. */
  ghost function Moved(s: State, t: Thread, task: Task<Locals>): State {
    s.(tasks := s.tasks[t := task])
  }

  lemma MoveKeeps(s: State, t: Thread, task: Task<Locals>)
    requires Broken(s) == {} && t in s.tasks && s.tasks[t].at in {Idle, SendWoken, RecvWoken, Failed}
    requires task.at in {Idle, Failed}
    requires s.tasks[t].at == SendWoken ==> s.free == NIL
    requires s.tasks[t].at == RecvWoken ==> s.entry == 0
    ensures Broken(Moved(s, t, task)) == {}
  {
    Intact(s);
    FreeHead(s);
    BystanderStep(s.msgSize, s.tasks, s.owner, s.nodes, s.promised, t, task);
    AwaitsStep(s.recvWait, s.tasks, RecvBlocked, RecvWoken, s.entry, t, task, s.entry);
    AwaitsStep(s.sendWait, s.tasks, SendBlocked, SendWoken, |s.frees|, t, task, |s.frees|);
    AllIntact(Moved(s, t, task));
  }

  /** A sender suspended because no node is free. */
  ghost function SenderSuspended(s: State, t: Thread, task: Task<Locals>, flag: Flag): State {
    var tasks := s.tasks[t := task];
    s.(tasks := tasks, sendWait := Enqueued(s.sendWait, tasks, t, flag))
  }

  lemma SuspendSenderKeeps(s: State, t: Thread, task: Task<Locals>, flag: Flag)
    requires Broken(s) == {} && t in s.tasks && s.tasks[t].at in {Idle, SendWoken} && task.at == SendBlocked
    requires s.free == NIL && |task.locals.buffer| <= s.msgSize
    ensures Elements(s.sendWait) <= s.tasks.Keys && Broken(SenderSuspended(s, t, task, flag)) == {}
  {
    Intact(s);
    FreeHead(s);
    BystanderStep(s.msgSize, s.tasks, s.owner, s.nodes, s.promised, t, task);
    AwaitsStep(s.recvWait, s.tasks, RecvBlocked, RecvWoken, s.entry, t, task, s.entry);
    AwaitsJoin(s.sendWait, s.tasks, SendBlocked, SendWoken, t, task, flag);
    AllIntact(SenderSuspended(s, t, task, flag));
  }

  /** A receiver suspended because no message is queued. */
  ghost function ReceiverSuspended(s: State, t: Thread, task: Task<Locals>, flag: Flag): State {
    var tasks := s.tasks[t := task];
    s.(tasks := tasks, recvWait := Enqueued(s.recvWait, tasks, t, flag))
  }

  lemma SuspendReceiverKeeps(s: State, t: Thread, task: Task<Locals>, flag: Flag)
    requires Broken(s) == {} && t in s.tasks && s.tasks[t].at in {Idle, RecvWoken} && task.at == RecvBlocked
    requires s.entry == 0
    ensures Elements(s.recvWait) <= s.tasks.Keys && Broken(ReceiverSuspended(s, t, task, flag)) == {}
  {
    Intact(s);
    BystanderStep(s.msgSize, s.tasks, s.owner, s.nodes, s.promised, t, task);
    AwaitsStep(s.sendWait, s.tasks, SendBlocked, SendWoken, |s.frees|, t, task, |s.frees|);
    AwaitsJoin(s.recvWait, s.tasks, RecvBlocked, RecvWoken, t, task, flag);
    AllIntact(ReceiverSuspended(s, t, task, flag));
  }

  /** A suspended thread whose timer fires. */
  ghost function TimedOut(s: State, t: Thread, task: Task<Locals>): State {
    s.(tasks := s.tasks[t := task], recvWait := Without(s.recvWait, t), sendWait := Without(s.sendWait, t))
  }

  lemma TimeoutKeeps(s: State, t: Thread, task: Task<Locals>)
    requires Broken(s) == {} && t in s.tasks && s.tasks[t].at in {SendBlocked, RecvBlocked} && task.at == Failed
    ensures Broken(TimedOut(s, t, task)) == {}
  {
    Intact(s);
    BystanderStep(s.msgSize, s.tasks, s.owner, s.nodes, s.promised, t, task);
    if s.tasks[t].at == SendBlocked {
      AwaitsLeave(s.sendWait, s.tasks, SendBlocked, SendWoken, |s.frees|, t, task);
      AwaitsStep(s.recvWait, s.tasks, RecvBlocked, RecvWoken, s.entry, t, task, s.entry);
      assert t !in At(s.tasks, RecvBlocked);
      NotWithout(s.recvWait, t);
    } else {
      AwaitsLeave(s.recvWait, s.tasks, RecvBlocked, RecvWoken, s.entry, t, task);
      AwaitsStep(s.sendWait, s.tasks, SendBlocked, SendWoken, |s.frees|, t, task, |s.frees|);
      assert t !in At(s.tasks, SendBlocked);
      NotWithout(s.sendWait, t);
    }
    AllIntact(TimedOut(s, t, task));
  }

  lemma WokenFits(s: State, t: Thread)
    requires Broken(s) == {} && t in s.tasks && s.tasks[t].at == SendWoken
    ensures |s.tasks[t].locals.buffer| <= s.msgSize
  {
    Intact(s);
    HolderFacts(s.msgSize, s.tasks, s.owner, s.nodes, s.promised, t);
  }

  /** What a thread holding a node knows. */
  lemma HeldFacts(s: State, t: Thread)
    requires Nodes(s) && Holders(s) && t in s.tasks && Holds(s.tasks[t].at)
    ensures var n := s.tasks[t].locals.msg;
            && n in s.nodes && n in s.owner && s.owner[n] == Held(t) && n !in s.msgs && n !in s.frees
            && |s.nodes[n].data| == s.msgSize
    ensures HolderAt(s.msgSize, t, s.tasks[t], s.owner, s.nodes, s.promised)
  {
    HolderFacts(s.msgSize, s.tasks, s.owner, s.nodes, s.promised, t);
    var n := s.tasks[t].locals.msg;
    assert n !in Missized(s.nodes, s.msgSize);
    assert n !in Elements(s.msgs) && n !in Elements(s.frees);
  }

  lemma HeldNode(s: State, t: Thread)
    requires Broken(s) == {} && t in s.tasks && Holds(s.tasks[t].at)
    ensures var n := s.tasks[t].locals.msg;
            n in s.nodes && n in s.owner && s.owner[n] == Held(t) && |s.nodes[n].data| == s.msgSize
    ensures s.tasks[t].at in {SendCopying, UrgentCopying} ==> |s.tasks[t].locals.buffer| <= s.msgSize
    ensures s.tasks[t].at == RecvCopying ==>
              t in s.promised && s.promised[t] <= s.nodes[s.tasks[t].locals.msg].data
  {
    Intact(s);
    HeldFacts(s, t);
  }

  /** The node after a sender has copied its message in; an ordinary sender ends it there. */
  ghost function FilledNode(s: State, t: Thread): Node
    requires t in s.tasks && s.tasks[t].locals.msg in s.nodes
    requires |s.tasks[t].locals.buffer| <= |s.nodes[s.tasks[t].locals.msg].data|
  {
    var node := s.nodes[s.tasks[t].locals.msg];
    Node(if s.tasks[t].at == SendCopying then NIL else node.next, Overwritten(node.data, s.tasks[t].locals.buffer))
  }

  ghost function CopiedIn(s: State, t: Thread): State
    requires t in s.tasks && s.tasks[t].locals.msg in s.nodes
    requires |s.tasks[t].locals.buffer| <= |s.nodes[s.tasks[t].locals.msg].data|
  {
    var task := s.tasks[t];
    s.(nodes := s.nodes[task.locals.msg := FilledNode(s, t)],
       tasks := s.tasks[t := task.(at := if task.at == SendCopying then SendLinking else UrgentLinking)],
       promised := s.promised[t := []])
  }

  lemma CopyInHolders(s: State, t: Thread)
    requires Nodes(s) && Holders(s) && t in s.tasks && s.tasks[t].at in {SendCopying, UrgentCopying}
    ensures s.tasks[t].locals.msg in s.nodes
    ensures |s.tasks[t].locals.buffer| <= |s.nodes[s.tasks[t].locals.msg].data|
    ensures Holders(CopiedIn(s, t))
  {
    HeldFacts(s, t);
    var n := s.tasks[t].locals.msg;
    assert s.owner[n := Held(t)] == s.owner;
    HolderStep(s.msgSize, s.tasks, s.owner, s.nodes, s.promised, t, CopiedIn(s, t).tasks[t], n, Held(t),
               FilledNode(s, t), []);
  }

  lemma CopyInKeeps(s: State, t: Thread)
    requires Broken(s) == {} && t in s.tasks && s.tasks[t].at in {SendCopying, UrgentCopying}
    ensures s.tasks[t].locals.msg in s.nodes
    ensures |s.tasks[t].locals.buffer| <= |s.nodes[s.tasks[t].locals.msg].data|
    ensures Broken(CopiedIn(s, t)) == {}
  {
    Intact(s);
    HeldFacts(s, t);
    CopyInHolders(s, t);
    var n, node, task := s.tasks[t].locals.msg, FilledNode(s, t), CopiedIn(s, t).tasks[t];
    ListedFrame(s.nodes, s.head, s.msgs, n, node);
    ListedFrame(s.nodes, s.free, s.frees, n, node);
    StillSized(s.nodes, s.msgSize, n, node);
    WrittenElsewhere(s.nodes, s.msgs, Replay(s.history), n, node);
    AwaitsStep(s.recvWait, s.tasks, RecvBlocked, RecvWoken, s.entry, t, task, s.entry);
    AwaitsStep(s.sendWait, s.tasks, SendBlocked, SendWoken, |s.frees|, t, task, |s.frees|);
    AllIntact(CopiedIn(s, t));
  }

  lemma StillSized(nodes: Store, size: nat, n: nat, v: Node)
    requires Missized(nodes, size) == {} && n in nodes && |v.data| == size
    ensures Missized(nodes[n := v], size) == {} && nodes[n := v].Keys == nodes.Keys
  {
    forall m | m in nodes ensures |nodes[n := v][m].data| == size {
      assert m !in Missized(nodes, size);
    }
  }

  /** A message linked in, at the back or, if urgent, at the front; and the first
      suspended receiver woken. */
  ghost function LinkedStore(s: State, t: Thread): State
    requires t in s.tasks && s.tasks[t].locals.msg in s.nodes && (s.tail == NIL || (s.tail >= 0 && s.tail in s.nodes))
  {
    var n, m := s.tasks[t].locals.msg, s.tasks[t].locals.buffer;
    if s.tasks[t].at == UrgentLinking then
      s.(nodes := s.nodes[n := s.nodes[n].(next := s.head)], head := n, tail := if s.tail == NIL then n else s.tail,
         entry := s.entry + 1, msgs := [n] + s.msgs, owner := s.owner[n := Queued], history := s.history + [Urged(m)])
    else
      s.(nodes := if s.tail == NIL then s.nodes else s.nodes[s.tail := s.nodes[s.tail].(next := n)],
         head := if s.head == NIL then n else s.head, tail := n,
         entry := s.entry + 1, msgs := s.msgs + [n], owner := s.owner[n := Queued], history := s.history + [Sent(m)])
  }

  ghost function Linked(s: State, t: Thread): State
    requires t in s.tasks && s.tasks[t].locals.msg in s.nodes && (s.tail == NIL || (s.tail >= 0 && s.tail in s.nodes))
  {
    LinkedStore(s, t).(tasks := Roused(s.tasks[t := s.tasks[t].(at := Idle)], s.recvWait, RecvWoken),
                       recvWait := Rest(s.recvWait), promised := s.promised[t := []])
  }

  /** Both ends of the message list. */
  lemma Ends(s: State)
    requires Lists(s) && Nodes(s)
    ensures s.head == NIL <==> s.msgs == []
    ensures s.tail == NIL <==> s.msgs == []
    ensures s.msgs != [] ==>
            s.head == s.msgs[0] && s.head in s.nodes && s.head in s.owner && s.owner[s.msgs[0]] == Queued
    ensures s.msgs != [] ==> s.tail >= 0 && s.tail in s.nodes && s.tail in s.owner && s.owner[s.tail] == Queued
    ensures s.msgs != [] ==> s.tail in s.msgs && s.tail !in s.frees
    ensures s.entry <= |s.owner|
  {
    if s.msgs != [] {
      HeadFacts(s.msgs);
      assert s.tail in Elements(s.msgs) && s.tail !in Elements(s.frees);
    }
    DistinctCount(s.msgs);
    SubsetSize(Elements(s.msgs), s.owner.Keys);
  }

  lemma SubsetSize(a: set<nat>, b: set<nat>)
    requires a <= b
    ensures |a| <= |b|
  {
    if a != {} {
      var x :| x in a;
      SubsetSize(a - {x}, b - {x});
    }
  }

  lemma LinkFrontLists(s: State, t: Thread)
    requires Lists(s) && Nodes(s) && Holders(s) && t in s.tasks && s.tasks[t].at == UrgentLinking
    ensures s.tasks[t].locals.msg in s.nodes && (s.tail == NIL || (s.tail >= 0 && s.tail in s.nodes))
    ensures Lists(LinkedStore(s, t))
  {
    HeldFacts(s, t);
    Ends(s);
    var n := s.tasks[t].locals.msg;
    var node := s.nodes[n].(next := s.head);
    LinkedFront(s.nodes, s.head, s.msgs, n, node.data);
    ListedFrame(s.nodes, s.free, s.frees, n, node);
  }

  lemma LinkFrontNodes(s: State, t: Thread)
    requires Lists(s) && Nodes(s) && Holders(s) && t in s.tasks && s.tasks[t].at == UrgentLinking
    ensures s.tasks[t].locals.msg in s.nodes && (s.tail == NIL || (s.tail >= 0 && s.tail in s.nodes))
    ensures Nodes(LinkedStore(s, t))
  {
    HeldFacts(s, t);
    Ends(s);
    var n := s.tasks[t].locals.msg;
    Passed(s.owner, n, Queued, Queued);
    Passed(s.owner, n, Queued, Spare);
    assert n !in Elements(s.msgs) && Distinct([n]);
    Joined([n], s.msgs);
    StillSized(s.nodes, s.msgSize, n, s.nodes[n].(next := s.head));
  }

  lemma LinkFrontContents(s: State, t: Thread)
    requires Lists(s) && Nodes(s) && Holders(s) && Contents(s) && t in s.tasks && s.tasks[t].at == UrgentLinking
    ensures s.tasks[t].locals.msg in s.nodes && (s.tail == NIL || (s.tail >= 0 && s.tail in s.nodes))
    ensures Contents(LinkedStore(s, t))
  {
    HeldFacts(s, t);
    Ends(s);
    var n, m := s.tasks[t].locals.msg, s.tasks[t].locals.buffer;
    OneMore(s.history, Urged(m));
    PushedFront(s.nodes, s.msgs, Replay(s.history), n, m);
    WrittenElsewhere(s.nodes, [n] + s.msgs, [m] + Replay(s.history), n, s.nodes[n].(next := s.head));
  }

  lemma Joined(a: seq<nat>, b: seq<nat>)
    requires Distinct(a) && Distinct(b) && Elements(a) !! Elements(b)
    ensures Distinct(a + b) && Elements(a + b) == Elements(a) + Elements(b)
  {
    assert forall x :: x in a ==> x in Elements(a);
    assert forall x :: x in b ==> x in Elements(b);
    DistinctConcat(a, b);
  }

  lemma LinkBackLists(s: State, t: Thread)
    requires Lists(s) && Nodes(s) && Holders(s) && t in s.tasks && s.tasks[t].at == SendLinking
    ensures s.tasks[t].locals.msg in s.nodes && (s.tail == NIL || (s.tail >= 0 && s.tail in s.nodes))
    ensures Lists(LinkedStore(s, t))
  {
    HeldFacts(s, t);
    Ends(s);
    var n := s.tasks[t].locals.msg;
    if s.msgs == [] {
      LinkedBack(s.nodes, s.head, s.msgs, n, []);
      assert s.msgs + [n] == [n];
    } else {
      var node := s.nodes[s.tail].(next := n);
      LinkedBack(s.nodes, s.head, s.msgs, n, node.data);
      ListedFrame(s.nodes, s.free, s.frees, s.tail, node);
    }
  }

  lemma LinkBackNodes(s: State, t: Thread)
    requires Lists(s) && Nodes(s) && Holders(s) && t in s.tasks && s.tasks[t].at == SendLinking
    ensures s.tasks[t].locals.msg in s.nodes && (s.tail == NIL || (s.tail >= 0 && s.tail in s.nodes))
    ensures Nodes(LinkedStore(s, t))
  {
    HeldFacts(s, t);
    Ends(s);
    var n := s.tasks[t].locals.msg;
    Passed(s.owner, n, Queued, Queued);
    Passed(s.owner, n, Queued, Spare);
    assert n !in Elements(s.msgs) && Distinct([n]);
    Joined(s.msgs, [n]);
    if s.msgs != [] {
      assert s.tail !in Missized(s.nodes, s.msgSize);
      StillSized(s.nodes, s.msgSize, s.tail, s.nodes[s.tail].(next := n));
    }
  }

  lemma LinkBackContents(s: State, t: Thread)
    requires Lists(s) && Nodes(s) && Holders(s) && Contents(s) && t in s.tasks && s.tasks[t].at == SendLinking
    ensures s.tasks[t].locals.msg in s.nodes && (s.tail == NIL || (s.tail >= 0 && s.tail in s.nodes))
    ensures Contents(LinkedStore(s, t))
  {
    HeldFacts(s, t);
    Ends(s);
    var n, m := s.tasks[t].locals.msg, s.tasks[t].locals.buffer;
    OneMore(s.history, Sent(m));
    PushedBack(s.nodes, s.msgs, Replay(s.history), n, m);
    if s.msgs != [] {
      WrittenElsewhere(s.nodes, s.msgs + [n], Replay(s.history) + [m], s.tail, s.nodes[s.tail].(next := n));
    }
  }

  lemma LinkHolders(s: State, t: Thread)
    requires Lists(s) && Nodes(s) && Holders(s) && t in s.tasks && s.tasks[t].at in {SendLinking, UrgentLinking}
    requires Awaits(s.recvWait, s.tasks, RecvBlocked, RecvWoken, s.entry)
    ensures s.tasks[t].locals.msg in s.nodes && (s.tail == NIL || (s.tail >= 0 && s.tail in s.nodes))
    ensures Holders(Linked(s, t))
  {
    HeldFacts(s, t);
    Ends(s);
    var n := s.tasks[t].locals.msg;
    var task := s.tasks[t].(at := Idle);
    var tasks, owner, promised := s.tasks[t := task], s.owner[n := Queued], s.promised[t := []];
    var nodes := LinkedStore(s, t).nodes;
    if s.tasks[t].at == UrgentLinking {
      HolderStep(s.msgSize, s.tasks, s.owner, s.nodes, s.promised, t, task, n, Queued, nodes[n], []);
    } else {
      assert s.nodes[n := s.nodes[n]] == s.nodes;
      HolderStep(s.msgSize, s.tasks, s.owner, s.nodes, s.promised, t, task, n, Queued, s.nodes[n], []);
      if s.tail != NIL {
        HoldersElsewhere(s.msgSize, tasks, owner, s.nodes, promised, s.tail, nodes[s.tail]);
      }
    }
    AwaitsStep(s.recvWait, s.tasks, RecvBlocked, RecvWoken, s.entry, t, task, s.entry);
    HoldersRoused(s.msgSize, tasks, owner, nodes, promised, s.recvWait, RecvBlocked, RecvWoken, s.entry);
  }

  lemma LinkKeeps(s: State, t: Thread)
    requires Broken(s) == {} && t in s.tasks && s.tasks[t].at in {SendLinking, UrgentLinking}
    ensures s.tasks[t].locals.msg in s.nodes && (s.tail == NIL || (s.tail >= 0 && s.tail in s.nodes))
    ensures Broken(Linked(s, t)) == {}
  {
    Intact(s);
    if s.tasks[t].at == UrgentLinking {
      LinkFrontLists(s, t);
      LinkFrontNodes(s, t);
      LinkFrontContents(s, t);
    } else {
      LinkBackLists(s, t);
      LinkBackNodes(s, t);
      LinkBackContents(s, t);
    }
    LinkHolders(s, t);
    var task := s.tasks[t].(at := Idle);
    var tasks := s.tasks[t := task];
    AwaitsStep(s.recvWait, s.tasks, RecvBlocked, RecvWoken, s.entry, t, task, s.entry);
    AwaitsStep(s.sendWait, s.tasks, SendBlocked, SendWoken, |s.frees|, t, task, |s.frees|);
    AwaitsArrival(s.recvWait, tasks, RecvBlocked, RecvWoken, s.entry);
    AwaitsOther(s.sendWait, tasks, SendBlocked, SendWoken, |s.frees|, s.recvWait, RecvBlocked, RecvWoken, s.entry);
    AllIntact(Linked(s, t));
  }

  /** The first message taken off the list for thread t. */
  ghost function Received(s: State, t: Thread, task: Task<Locals>): State
    requires s.head >= 0 && s.head in s.nodes && s.msgs != [] && Replay(s.history) != [] && s.entry > 0
  {
    var m := Replay(s.history)[0];
    s.(head := s.nodes[s.head].next, tail := if s.tail == s.head then NIL else s.tail, entry := s.entry - 1,
       msgs := s.msgs[1..], owner := s.owner[s.head := Held(t)], history := s.history + [Taken(m)],
       tasks := s.tasks[t := task], promised := s.promised[t := m])
  }

  lemma FrontFacts(s: State)
    requires Broken(s) == {} && s.entry != 0
    ensures s.head >= 0 && s.head in s.nodes && s.msgs != [] && Replay(s.history) != []
  {
    Intact(s);
    Ends(s);
  }

  lemma TakeStore(s: State, t: Thread, task: Task<Locals>)
    requires Broken(s) == {} && s.entry != 0
    ensures s.head >= 0 && s.head in s.nodes && s.msgs != [] && Replay(s.history) != []
    ensures var s' := Received(s, t, task); Lists(s') && Nodes(s') && Contents(s')
    ensures Replay(s.history)[0] <= s.nodes[s.head].data && s.head in s.owner && s.owner[s.head] == Queued
  {
    Intact(s);
    Ends(s);
    HeadFacts(s.msgs);
    Popped(s.nodes, s.msgs, Replay(s.history));
    OneMore(s.history, Taken(Replay(s.history)[0]));
    Passed(s.owner, s.head, Held(t), Queued);
    Passed(s.owner, s.head, Held(t), Spare);
    LastOfRest(s.msgs);
  }

  lemma LastOfRest(s: seq<nat>)
    requires Distinct(s) && s != []
    ensures LastOr(s[1..]) == if LastOr(s) == s[0] then NIL else LastOr(s)
  {
    if |s| > 1 {
      assert s[|s| - 1] in s[1..];
    }
  }

  lemma TakeHolders(s: State, t: Thread, task: Task<Locals>)
    requires Broken(s) == {} && s.entry != 0 && t in s.tasks && s.tasks[t].at in {Idle, RecvWoken}
    requires task.at == RecvCopying && task.locals.msg == s.head
    ensures s.head >= 0 && s.head in s.nodes && s.msgs != [] && Replay(s.history) != []
    ensures Holders(Received(s, t, task))
  {
    Intact(s);
    TakeStore(s, t, task);
    assert s.nodes[s.head := s.nodes[s.head]] == s.nodes;
    HolderStep(s.msgSize, s.tasks, s.owner, s.nodes, s.promised, t, task, s.head, Held(t), s.nodes[s.head],
        Replay(s.history)[0]);
  }

  lemma TakeAwaits(s: State, t: Thread, task: Task<Locals>)
    requires Broken(s) == {} && s.entry != 0 && t in s.tasks && s.tasks[t].at in {Idle, RecvWoken}
             && task.at == RecvCopying
    ensures Awaits(s.recvWait, s.tasks[t := task], RecvBlocked, RecvWoken, s.entry - 1)
    ensures Awaits(s.sendWait, s.tasks[t := task], SendBlocked, SendWoken, |s.frees|)
  {
    Intact(s);
    AwaitsStep(s.recvWait, s.tasks, RecvBlocked, RecvWoken, s.entry, t, task, s.entry - 1);
    AwaitsStep(s.sendWait, s.tasks, SendBlocked, SendWoken, |s.frees|, t, task, |s.frees|);
  }

  lemma TakeKeeps(s: State, t: Thread, task: Task<Locals>)
    requires Broken(s) == {} && s.entry != 0 && t in s.tasks && s.tasks[t].at in {Idle, RecvWoken}
    requires task.at == RecvCopying && task.locals.msg == s.head
    ensures s.head >= 0 && s.head in s.nodes && s.msgs != [] && Replay(s.history) != []
    ensures Broken(Received(s, t, task)) == {}
  {
    TakeStore(s, t, task);
    TakeHolders(s, t, task);
    TakeAwaits(s, t, task);
    AllIntact(Received(s, t, task));
  }

  /** A receiver done with its copy. */
  lemma CopyOutKeeps(s: State, t: Thread, task: Task<Locals>)
    requires Broken(s) == {} && t in s.tasks && s.tasks[t].at == RecvCopying
    requires task == s.tasks[t].(at := RecvFreeing)
    ensures Broken(Moved(s, t, task)) == {}
  {
    Intact(s);
    HeldFacts(s, t);
    var n := task.locals.msg;
    assert s.owner[n := Held(t)] == s.owner && s.nodes[n := s.nodes[n]] == s.nodes;
    assert s.promised[t := s.promised[t]] == s.promised;
    HolderStep(s.msgSize, s.tasks, s.owner, s.nodes, s.promised, t, task, n, Held(t), s.nodes[n], s.promised[t]);
    AwaitsStep(s.recvWait, s.tasks, RecvBlocked, RecvWoken, s.entry, t, task, s.entry);
    AwaitsStep(s.sendWait, s.tasks, SendBlocked, SendWoken, |s.frees|, t, task, |s.frees|);
    AllIntact(Moved(s, t, task));
  }

  /** A node put back on the free list, and the first suspended sender woken. */
  ghost function Freed(s: State, t: Thread): State
    requires t in s.tasks && s.tasks[t].locals.msg in s.nodes
  {
    var n := s.tasks[t].locals.msg;
    s.(nodes := s.nodes[n := s.nodes[n].(next := s.free)], free := n, frees := [n] + s.frees,
       owner := s.owner[n := Spare], tasks := Roused(s.tasks[t := s.tasks[t].(at := Idle)], s.sendWait, SendWoken),
       sendWait := Rest(s.sendWait), promised := s.promised[t := []])
  }

  lemma FreeLists(s: State, t: Thread)
    requires Lists(s) && Nodes(s) && Holders(s) && Contents(s) && t in s.tasks && s.tasks[t].at == RecvFreeing
    ensures s.tasks[t].locals.msg in s.nodes && Lists(Freed(s, t)) && Contents(Freed(s, t))
  {
    HeldFacts(s, t);
    var n := s.tasks[t].locals.msg;
    var node := s.nodes[n].(next := s.free);
    LinkedFront(s.nodes, s.free, s.frees, n, node.data);
    ListedFrame(s.nodes, s.head, s.msgs, n, node);
    WrittenElsewhere(s.nodes, s.msgs, Replay(s.history), n, node);
  }

  lemma FreeNodes(s: State, t: Thread)
    requires Nodes(s) && Holders(s) && t in s.tasks && s.tasks[t].at == RecvFreeing
    ensures s.tasks[t].locals.msg in s.nodes && Nodes(Freed(s, t))
  {
    HeldFacts(s, t);
    var n := s.tasks[t].locals.msg;
    Passed(s.owner, n, Spare, Queued);
    Passed(s.owner, n, Spare, Spare);
    assert n !in Elements(s.frees) && Distinct([n]);
    Joined([n], s.frees);
    StillSized(s.nodes, s.msgSize, n, s.nodes[n].(next := s.free));
  }

  lemma FreeHolders(s: State, t: Thread)
    requires Nodes(s) && Holders(s) && t in s.tasks && s.tasks[t].at == RecvFreeing
    requires Awaits(s.sendWait, s.tasks, SendBlocked, SendWoken, |s.frees|)
    ensures s.tasks[t].locals.msg in s.nodes && Holders(Freed(s, t))
  {
    HeldFacts(s, t);
    var n := s.tasks[t].locals.msg;
    var task, node := s.tasks[t].(at := Idle), s.nodes[n].(next := s.free);
    HolderStep(s.msgSize, s.tasks, s.owner, s.nodes, s.promised, t, task, n, Spare, node, []);
    AwaitsStep(s.sendWait, s.tasks, SendBlocked, SendWoken, |s.frees|, t, task, |s.frees|);
    HoldersRoused(s.msgSize, s.tasks[t := task], s.owner[n := Spare], s.nodes[n := node], s.promised[t := []],
                  s.sendWait, SendBlocked, SendWoken, |s.frees|);
  }

  lemma FreeKeeps(s: State, t: Thread)
    requires Broken(s) == {} && t in s.tasks && s.tasks[t].at == RecvFreeing
    ensures s.tasks[t].locals.msg in s.nodes && Broken(Freed(s, t)) == {}
  {
    Intact(s);
    FreeLists(s, t);
    FreeNodes(s, t);
    FreeHolders(s, t);
    var task := s.tasks[t].(at := Idle);
    var tasks := s.tasks[t := task];
    AwaitsStep(s.recvWait, s.tasks, RecvBlocked, RecvWoken, s.entry, t, task, s.entry);
    AwaitsStep(s.sendWait, s.tasks, SendBlocked, SendWoken, |s.frees|, t, task, |s.frees|);
    AwaitsArrival(s.sendWait, tasks, SendBlocked, SendWoken, |s.frees|);
    AwaitsOther(s.recvWait, tasks, RecvBlocked, RecvWoken, s.entry, s.sendWait, SendBlocked, SendWoken, |s.frees|);
    AllIntact(Freed(s, t));
  }

  /** One message thrown back on the free list by a reset, with nobody waiting. */
  ghost function Dropped(s: State): State
    requires s.head >= 0 && s.head in s.nodes && s.msgs != [] && Replay(s.history) != [] && s.entry > 0
  {
    var n: nat := s.head;
    s.(nodes := s.nodes[n := s.nodes[n].(next := s.free)], head := s.nodes[n].next,
       tail := if s.tail == n then NIL else s.tail, free := n, entry := s.entry - 1,
       msgs := s.msgs[1..], frees := [n] + s.frees, owner := s.owner[n := Spare],
       history := s.history + [Taken(Replay(s.history)[0])])
  }

  lemma DropKeeps(s: State)
    requires Broken(s) == {} && s.entry != 0 && s.recvWait == [] && s.sendWait == []
    ensures s.head >= 0 && s.head in s.nodes && s.msgs != [] && Replay(s.history) != []
    ensures Broken(Dropped(s)) == {}
  {
    Intact(s);
    Ends(s);
    DropLists(s);
    DropNodes(s);
    DropContents(s);
    HoldersDrop(s);
    AllIntact(Dropped(s));
  }

  lemma HoldersDrop(s: State)
    requires Holders(s) && s.head >= 0 && s.head in s.nodes && s.head in s.owner && s.owner[s.head] == Queued
    ensures var nodes := s.nodes[s.head := s.nodes[s.head].(next := s.free)];
            Strays(s.msgSize, s.tasks, s.owner[s.head := Spare], nodes, s.promised) == {}
                && Leaks(s.tasks, s.owner[s.head := Spare]) == {}
  {
    var node := s.nodes[s.head].(next := s.free);
    var owner := s.owner[s.head := Spare];
    HoldersElsewhere(s.msgSize, s.tasks, s.owner, s.nodes, s.promised, s.head, node);
    forall x | x in s.tasks ensures HolderAt(s.msgSize, x, s.tasks[x], owner, s.nodes[s.head := node], s.promised) {
      HolderFacts(s.msgSize, s.tasks, s.owner, s.nodes[s.head := node], s.promised, x);
    }
    forall m | m in owner ensures HeldAt(m, s.tasks, owner) {
      assert m !in Leaks(s.tasks, s.owner);
    }
  }

  lemma DropLists(s: State)
    requires Lists(s) && Nodes(s) && Contents(s) && s.entry != 0
    ensures s.head >= 0 && s.head in s.nodes && s.msgs != [] && Replay(s.history) != []
    ensures Lists(Dropped(s))
  {
    Ends(s);
    HeadFacts(s.msgs);
    var n: nat := s.head;
    var node := s.nodes[n].(next := s.free);
    assert n !in Elements(s.frees) && n !in Elements(s.msgs[1..]);
    ListedFrame(s.nodes, s.nodes[n].next, s.msgs[1..], n, node);
    LinkedFront(s.nodes, s.free, s.frees, n, node.data);
    LastOfRest(s.msgs);
  }

  lemma DropNodes(s: State)
    requires Lists(s) && Nodes(s) && Contents(s) && s.entry != 0
    ensures s.head >= 0 && s.head in s.nodes && s.msgs != [] && Replay(s.history) != []
    ensures Nodes(Dropped(s))
  {
    Ends(s);
    HeadFacts(s.msgs);
    var n: nat := s.head;
    assert n !in Elements(s.frees) && Distinct([n]);
    Joined([n], s.frees);
    Passed(s.owner, n, Spare, Queued);
    Passed(s.owner, n, Spare, Spare);
    assert n !in Missized(s.nodes, s.msgSize);
    StillSized(s.nodes, s.msgSize, n, s.nodes[n].(next := s.free));
  }

  lemma DropContents(s: State)
    requires Lists(s) && Nodes(s) && Contents(s) && s.entry != 0
    ensures s.head >= 0 && s.head in s.nodes && s.msgs != [] && Replay(s.history) != []
    ensures Contents(Dropped(s))
  {
    Ends(s);
    HeadFacts(s.msgs);
    var n: nat := s.head;
    Popped(s.nodes, s.msgs, Replay(s.history));
    OneMore(s.history, Taken(Replay(s.history)[0]));
    WrittenElsewhere(s.nodes, s.msgs[1..], Replay(s.history)[1..], n, s.nodes[n].(next := s.free));
  }

  /** Failing the first thread of either list is a step like a timeout. */
  lemma FailHeadKeeps(s: State, list: seq<Thread>)
    requires Broken(s) == {} && list != [] && (list == s.recvWait || list == s.sendWait)
    ensures list[0] in s.tasks
    ensures var task := s.tasks[list[0]].(at := Failed, timer := false, error := ERROR);
            var tasks := s.tasks[list[0] := task];
            && (list == s.recvWait ==> Broken(s.(tasks := tasks, recvWait := list[1..])) == {})
            && (list == s.sendWait ==> Broken(s.(tasks := tasks, sendWait := list[1..])) == {})
  {
    Intact(s);
    HeadFacts(list);
    var t := list[0];
    var task := s.tasks[t].(at := Failed, timer := false, error := ERROR);
    TimeoutKeeps(s, t, task);
    assert Without(list, t) == list[1..];
    if list == s.recvWait {
      assert t in At(s.tasks, RecvBlocked) && t !in At(s.tasks, SendBlocked);
      NotWithout(s.sendWait, t);
      assert TimedOut(s, t, task) == s.(tasks := s.tasks[t := task], recvWait := list[1..]);
    }
    if list == s.sendWait {
      assert t in At(s.tasks, SendBlocked) && t !in At(s.tasks, RecvBlocked);
      NotWithout(s.recvWait, t);
      assert TimedOut(s, t, task) == s.(tasks := s.tasks[t := task], sendWait := list[1..]);
    }
  }

  lemma Counted(s: State)
    requires Broken(s) == {}
    ensures (s.head == NIL <==> s.entry == 0) && s.entry == |s.msgs|
  {
    Intact(s);
    Ends(s);
  }

  lemma Told(s: State)
    requires Broken(s) == {}
    ensures Legal(s.history)
  {
    Intact(s);
  }

  /** The reset recorded in the history. */
  lemma ClearKeeps(s: State, history: seq<Event<Message>>)
    requires Broken(s) == {} && s.entry == 0 && Legal(history)
    ensures Broken(s.(history := history + [Cleared])) == {}
  {
    Intact(s);
    OneMore(history, Cleared);
    AllIntact(s.(history := history + [Cleared]));
  }

  // What holds in every reachable state

  /** Every thread that was woken has run, and every copy is finished. */
  ghost predicate Settled(s: State) {
    forall t :: t in s.tasks ==> s.tasks[t].at in {Idle, SendBlocked, RecvBlocked, Failed}
  }

  /** No lost wakeups: once every woken thread has run and every copy is finished, waiting
      receivers mean an empty queue and waiting senders a full one. */
  lemma Quiescent(s: State)
    requires Broken(s) == {} && Settled(s)
    ensures s.recvWait != [] ==> s.msgs == [] && s.head == NIL
    ensures s.sendWait != [] ==> s.entry == s.maxMsgs && s.free == NIL
  {
    Intact(s);
    Ends(s);
    FreeHead(s);
    if s.sendWait != [] {
      assert At(s.tasks, SendWoken) == {};
      forall n | n in s.owner ensures n in OwnedBy(s.owner, Queued) {
        assert n !in Leaks(s.tasks, s.owner);
        assert n !in OwnedBy(s.owner, Spare);
      }
      assert OwnedBy(s.owner, Queued) == s.owner.Keys;
      DistinctCount(s.msgs);
    }
    if s.recvWait != [] {
      assert At(s.tasks, RecvWoken) == {};
    }
  }

  /** Every node is in exactly one place: on the free list, on the message list, or with
      the one thread copying into or out of it. */
  lemma Partition(s: State, n: nat)
    requires Broken(s) == {} && n in s.nodes
    ensures n in s.frees || n in s.msgs
         || (exists t :: t in s.tasks && Holds(s.tasks[t].at) && s.tasks[t].locals.msg == n)
    ensures n in s.frees ==> n !in s.msgs
    ensures forall t :: t in s.tasks && Holds(s.tasks[t].at) && s.tasks[t].locals.msg == n ==>
              n !in s.frees && n !in s.msgs
    ensures forall t, u ::
              (&& t in s.tasks && Holds(s.tasks[t].at) && s.tasks[t].locals.msg == n
               && u in s.tasks && Holds(s.tasks[u].at) && s.tasks[u].locals.msg == n) ==> t == u
    ensures Distinct(s.frees) && Distinct(s.msgs)
  {
    Intact(s);
    assert n in s.frees <==> n in Elements(s.frees);
    assert n in s.msgs <==> n in Elements(s.msgs);
    assert n !in Leaks(s.tasks, s.owner);
    forall t | t in s.tasks && Holds(s.tasks[t].at) && s.tasks[t].locals.msg == n
      ensures n in s.owner && s.owner[n] == Held(t) && n !in s.frees && n !in s.msgs
    {
      HeldFacts(s, t);
    }
  }

  /** head is null iff tail is null iff entry is 0, and entry counts the queued messages. */
  lemma NullTogether(s: State)
    requires Broken(s) == {}
    ensures (s.head == NIL <==> s.tail == NIL) && (s.head == NIL <==> s.entry == 0)
    ensures s.entry == |Replay(s.history)| <= s.maxMsgs <= ENTRY_MAX
  {
    Intact(s);
    Ends(s);
  }

  /** The 16-bit count never overflows: a sender about to link finds it below its maximum. */
  lemma CountFits(s: State, t: Thread)
    requires Broken(s) == {} && t in s.tasks && s.tasks[t].at in {SendLinking, UrgentLinking}
    ensures s.entry < ENTRY_MAX
  {
    Intact(s);
    HeldFacts(s, t);
    DistinctCount(s.msgs);
    assert s.tasks[t].locals.msg in s.owner.Keys - Elements(s.msgs);
    SubsetSize(Elements(s.msgs), s.owner.Keys - {s.tasks[t].locals.msg});
  }

  lemma LinkFacts(s: State, t: Thread)
    requires Broken(s) == {} && t in s.tasks && s.tasks[t].at in {SendLinking, UrgentLinking}
    ensures s.tasks[t].locals.msg in s.nodes && (s.tail == NIL || (s.tail >= 0 && s.tail in s.nodes))
    ensures s.entry < ENTRY_MAX
  {
    Intact(s);
    HeldFacts(s, t);
    Ends(s);
    CountFits(s, t);
  }

  /** Every message linked was received once, thrown away by a reset, or is still queued. */
  lemma EachOnce(s: State)
    requires Broken(s) == {}
    ensures multiset(Arrivals(s.history)) ==
            multiset(Receipts(s.history)) + multiset(Discards(s.history)) + multiset(Replay(s.history))
  {
    Intact(s);
    Conserved(s.history);
  }

  // A new queue

  /** rt_mq_create threads one more node on the free list. */
  ghost function PoolGrown(s: State, n: nat, d: Message): State {
    s.(nodes := s.nodes[n := Node(s.free, d)], free := n, frees := [n] + s.frees, owner := s.owner[n := Spare],
       maxMsgs := s.maxMsgs + 1)
  }

  lemma PoolHolders(s: State, n: nat, d: Message)
    requires Holders(s) && n !in s.owner
    ensures Holders(PoolGrown(s, n, d))
  {
    var s' := PoolGrown(s, n, d);
    forall x | x in s.tasks ensures HolderAt(s.msgSize, x, s.tasks[x], s'.owner, s'.nodes, s.promised) {
      HolderFacts(s.msgSize, s.tasks, s.owner, s.nodes, s.promised, x);
    }
    forall m | m in s'.owner ensures HeldAt(m, s.tasks, s'.owner) {
      assert m !in Leaks(s.tasks, s.owner);
    }
  }

  lemma PoolNodes(s: State, n: nat, d: Message)
    requires Nodes(s) && n !in s.owner && |d| == s.msgSize
    ensures Nodes(PoolGrown(s, n, d))
  {
    var s' := PoolGrown(s, n, d);
    assert n !in Elements(s.msgs) && n !in Elements(s.frees) && Distinct([n]);
    Joined([n], s.frees);
    Passed(s.owner, n, Spare, Spare);
    Passed(s.owner, n, Spare, Queued);
    forall m | m in s'.nodes ensures |s'.nodes[m].data| == s.msgSize {
      assert m !in Missized(s.nodes, s.msgSize);
    }
  }

  lemma PoolGrows(s: State, n: nat, d: Message)
    requires Broken(s) == {} && s.maxMsgs < ENTRY_MAX && n !in s.owner && |d| == s.msgSize && s.sendWait == []
    ensures Broken(PoolGrown(s, n, d)) == {}
  {
    Intact(s);
    assert n !in Elements(s.msgs) && n !in Elements(s.frees);
    ListedFrame(s.nodes, s.head, s.msgs, n, Node(s.free, d));
    LinkedFront(s.nodes, s.free, s.frees, n, d);
    WrittenElsewhere(s.nodes, s.msgs, Replay(s.history), n, Node(s.free, d));
    PoolNodes(s, n, d);
    PoolHolders(s, n, d);
    AllIntact(PoolGrown(s, n, d));
  }

  ghost predicate Startable(size: nat, pool: seq<Message>, tasks: Tasks) {
    && |pool| <= ENTRY_MAX && (forall i :: 0 <= i < |pool| ==> |pool[i]| == AlignUp(size))
    && forall t :: t in tasks ==> tasks[t].at == Idle
  }

  /** A queue among threads that are doing nothing with it, with the first n nodes of the pool. */
  ghost function Pooled(size: nat, pool: seq<Message>, tasks: Tasks, n: nat): State
    requires n <= |pool|
  {
    if n == 0 then State(AlignUp(size), 0, map[], NIL, NIL, NIL, 0, [], [], tasks, [], [], map[], [], map[])
    else PoolGrown(Pooled(size, pool, tasks, n - 1), n - 1, pool[n - 1])
  }

  lemma EmptyIsWhole(s: State)
    requires s.maxMsgs == 0 && s.nodes == map[] && s.head == s.tail == s.free == NIL && s.entry == 0
    requires s.recvWait == [] && s.sendWait == [] && s.msgs == [] && s.frees == [] && s.owner == map[]
             && s.history == []
    requires forall t :: t in s.tasks ==> s.tasks[t].at == Idle
    ensures Broken(s) == {}
  {
    assert At(s.tasks, RecvBlocked) == {} && At(s.tasks, SendBlocked) == {};
    assert OwnedBy(s.owner, Queued) == {} && OwnedBy(s.owner, Spare) == {};
    AllIntact(s);
  }

  lemma {:induction false} PooledIsWhole(size: nat, pool: seq<Message>, tasks: Tasks, n: nat)
    requires Startable(size, pool, tasks) && n <= |pool|
    ensures var s := Pooled(size, pool, tasks, n);
            && Broken(s) == {} && s.maxMsgs == n && s.msgSize == AlignUp(size) && s.sendWait == []
            && forall m :: m in s.owner ==> m < n
  {
    if n == 0 {
      EmptyIsWhole(Pooled(size, pool, tasks, 0));
    } else {
      PooledIsWhole(size, pool, tasks, n - 1);
      PoolGrows(Pooled(size, pool, tasks, n - 1), n - 1, pool[n - 1]);
    }
  }

  lemma {:induction false} PooledHistory(size: nat, pool: seq<Message>, tasks: Tasks, n: nat)
    requires n <= |pool|
    ensures Pooled(size, pool, tasks, n).history == [] && Pooled(size, pool, tasks, n).tasks == tasks
  {
    if n > 0 {
      PooledHistory(size, pool, tasks, n - 1);
    }
  }

  // Runs

  /** What may happen next: a thread starts a call, continues one, or times out; or a reset. */
  datatype Command =
    | Send(t: Thread, bytes: Message, timeout: int)
    | Jump(t: Thread, bytes: Message)
    | Receive(t: Thread, size: nat, timeout: int)
    | Continue(t: Thread, elapsed: nat)
    | Expire(t: Thread)
    | Clear

  /** One pass of the send loop: wait for a free node, or take it. */
  ghost function SendPass(s: State, flag: Flag, t: Thread, bytes: Message, timeout: int): State
    requires Broken(s) == {} && t in s.tasks
  {
    var task := s.tasks[t].(error := EOK);
    if s.free != NIL then NodeTaken(s, t, SendCopying, bytes)
    else if timeout == 0 then Moved(s, t, task.(at := Idle))
    else SenderSuspended(s, t, task.(at := SendBlocked, timer := timeout > 0, timeout := timeout,
                                     locals := task.locals.(buffer := bytes, size := |bytes|)), flag)
  }

  /** The first free node becomes thread t's, which goes on at p. */
  ghost function NodeTaken(s: State, t: Thread, p: Point, bytes: Message): State
    requires Broken(s) == {} && t in s.tasks && s.free != NIL
  {
    FreeFacts(s);
    Claimed(s, t, s.tasks[t].(at := p, locals := Locals(s.free, bytes, |bytes|)))
  }

  lemma SendPassKeeps(s: State, flag: Flag, t: Thread, bytes: Message, timeout: int)
    requires Broken(s) == {} && t in s.tasks && s.tasks[t].at in {Idle, SendWoken} && |bytes| <= s.msgSize
    ensures Broken(SendPass(s, flag, t, bytes, timeout)) == {}
  {
    var task := s.tasks[t].(error := EOK);
    if s.free != NIL {
      FreeFacts(s);
      ClaimTasks(s, t, s.tasks[t].(at := SendCopying, locals := Locals(s.free, bytes, |bytes|)));
    } else if timeout == 0 {
      MoveKeeps(s, t, task.(at := Idle));
    } else {
      SuspendSenderKeeps(s, t, task.(at := SendBlocked, timer := timeout > 0, timeout := timeout,
                                     locals := task.locals.(buffer := bytes, size := |bytes|)), flag);
    }
  }

  /** rt_mq_send_wait, up to the first suspension or the node it will fill. */
  ghost function SendStart(s: State, flag: Flag, t: Thread, bytes: Message, timeout: int): State
    requires Broken(s) == {} && t in s.tasks
  {
    if |bytes| > s.msgSize || (s.free == NIL && timeout == 0) then s else SendPass(s, flag, t, bytes, timeout)
  }

  /** rt_mq_urgent, up to the node it will fill. */
  ghost function UrgentStart(s: State, t: Thread, bytes: Message): State
    requires Broken(s) == {} && t in s.tasks
  {
    if |bytes| > s.msgSize || s.free == NIL then s else NodeTaken(s, t, UrgentCopying, bytes)
  }

  /** One pass of the receive loop: wait for a message, or take it off the list. */
  ghost function RecvPass(s: State, flag: Flag, t: Thread, size: nat, timeout: int): State
    requires Broken(s) == {} && t in s.tasks
  {
    var task := s.tasks[t];
    if s.entry != 0 then MessageTaken(s, t, size)
    else if timeout == 0 then Moved(s, t, task.(at := Idle, error := ETIMEOUT))
    else ReceiverSuspended(s, t, task.(at := RecvBlocked, timer := timeout > 0, timeout := timeout, error := EOK,
                                       locals := task.locals.(size := size)), flag)
  }

  /** The first message's node becomes thread t's. */
  ghost function MessageTaken(s: State, t: Thread, size: nat): State
    requires Broken(s) == {} && t in s.tasks && s.entry != 0
  {
    FrontFacts(s);
    Received(s, t, s.tasks[t].(at := RecvCopying, locals := Locals(s.head, [], size)))
  }

  lemma RecvPassKeeps(s: State, flag: Flag, t: Thread, size: nat, timeout: int)
    requires Broken(s) == {} && t in s.tasks && s.tasks[t].at in {Idle, RecvWoken}
    ensures Broken(RecvPass(s, flag, t, size, timeout)) == {}
  {
    var task := s.tasks[t];
    if s.entry != 0 {
      FrontFacts(s);
      TakeKeeps(s, t, task.(at := RecvCopying, locals := Locals(s.head, [], size)));
    } else if timeout == 0 {
      MoveKeeps(s, t, task.(at := Idle, error := ETIMEOUT));
    } else {
      SuspendReceiverKeeps(s, t, task.(at := RecvBlocked, timer := timeout > 0, timeout := timeout, error := EOK,
                                       locals := task.locals.(size := size)), flag);
    }
  }

  /** A thread inside a call runs its next region. */
  ghost function Continued(s: State, flag: Flag, t: Thread, elapsed: nat): State
    requires Broken(s) == {} && t in s.tasks
  {
    var task := s.tasks[t];
    match task.at
    case SendWoken => SendPass(s, flag, t, task.locals.buffer, Remaining(task.timeout, elapsed))
    case SendCopying => CopyInKeeps(s, t); CopiedIn(s, t)
    case UrgentCopying => CopyInKeeps(s, t); CopiedIn(s, t)
    case SendLinking => LinkKeeps(s, t); Linked(s, t)
    case UrgentLinking => LinkKeeps(s, t); Linked(s, t)
    case RecvWoken => RecvPass(s, flag, t, task.locals.size, Remaining(task.timeout, elapsed))
    case RecvCopying => Moved(s, t, task.(at := RecvFreeing))
    case RecvFreeing => FreeKeeps(s, t); Freed(s, t)
    case Failed => Moved(s, t, task.(at := Idle))
    case _ => s
  }

  lemma ContinueKeeps(s: State, flag: Flag, t: Thread, elapsed: nat)
    requires Broken(s) == {} && t in s.tasks
    ensures Broken(Continued(s, flag, t, elapsed)) == {}
  {
    var task := s.tasks[t];
    match task.at {
      case SendWoken =>
        WokenFits(s, t);
        SendPassKeeps(s, flag, t, task.locals.buffer, Remaining(task.timeout, elapsed));
      case SendCopying => CopyInKeeps(s, t);
      case UrgentCopying => CopyInKeeps(s, t);
      case SendLinking => LinkKeeps(s, t);
      case UrgentLinking => LinkKeeps(s, t);
      case RecvWoken => RecvPassKeeps(s, flag, t, task.locals.size, Remaining(task.timeout, elapsed));
      case RecvCopying => CopyOutKeeps(s, t, task.(at := RecvFreeing));
      case RecvFreeing => FreeKeeps(s, t);
      case Failed => MoveKeeps(s, t, task.(at := Idle));
      case _ =>
    }
  }

  /** Every message thrown back on the free list, with nobody waiting. */
  ghost function Drained(s: State): (r: State)
    requires Broken(s) == {} && s.recvWait == [] && s.sendWait == []
    ensures Broken(r) == {} && r.entry == 0
    decreases s.entry
  {
    if s.entry == 0 then s else DropKeeps(s); Drained(Dropped(s))
  }

  /** Both lists of suspended threads emptied. */
  ghost function Deserted(s: State): State {
    s.(recvWait := [], sendWait := [], tasks := AllFailed(AllFailed(s.tasks, s.recvWait), s.sendWait))
  }

  lemma {:induction false} FailReceiversKeeps(s: State)
    requires Broken(s) == {}
    ensures Broken(s.(recvWait := [], tasks := AllFailed(s.tasks, s.recvWait))) == {}
    decreases |s.recvWait|
  {
    if s.recvWait == [] {
      assert s.(recvWait := [], tasks := AllFailed(s.tasks, s.recvWait)) == s;
    } else {
      FailHeadKeeps(s, s.recvWait);
      var t := s.recvWait[0];
      var tasks := s.tasks[t := s.tasks[t].(at := Failed, timer := false, error := ERROR)];
      FailReceiversKeeps(s.(tasks := tasks, recvWait := s.recvWait[1..]));
    }
  }

  lemma {:induction false} FailSendersKeeps(s: State)
    requires Broken(s) == {}
    ensures Broken(s.(sendWait := [], tasks := AllFailed(s.tasks, s.sendWait))) == {}
    decreases |s.sendWait|
  {
    if s.sendWait == [] {
      assert s.(sendWait := [], tasks := AllFailed(s.tasks, s.sendWait)) == s;
    } else {
      FailHeadKeeps(s, s.sendWait);
      var t := s.sendWait[0];
      var tasks := s.tasks[t := s.tasks[t].(at := Failed, timer := false, error := ERROR)];
      FailSendersKeeps(s.(tasks := tasks, sendWait := s.sendWait[1..]));
    }
  }

  lemma DesertKeeps(s: State)
    requires Broken(s) == {}
    ensures Broken(Deserted(s)) == {}
  {
    FailReceiversKeeps(s);
    var s1 := s.(recvWait := [], tasks := AllFailed(s.tasks, s.recvWait));
    FailSendersKeeps(s1);
  }

  /** rt_mq_control with the reset command. */
  ghost function AfterReset(s: State): State
    requires Broken(s) == {}
  {
    DesertKeeps(s);
    Drained(Deserted(s)).(history := s.history + [Cleared])
  }

  /** One step of some thread, if the thread is there for it; otherwise nothing. */
  ghost function Next(s: State, flag: Flag, c: Command): State
    requires Broken(s) == {}
  {
    if c.Clear? then AfterReset(s)
    else if c.t !in s.tasks then s
    else
      var task := s.tasks[c.t];
      match c
      case Send(t, bytes, timeout) => if task.at.Idle? && bytes != [] then SendStart(s, flag, t, bytes, timeout) else s
      case Jump(t, bytes) => if task.at.Idle? && bytes != [] then UrgentStart(s, t, bytes) else s
      case Receive(t, size, timeout) =>
        if task.at.Idle? && size > 0 && !(s.entry == 0 && timeout == 0) then RecvPass(s, flag, t, size, timeout) else s
      case Expire(t) =>
        if task.at in {SendBlocked, RecvBlocked} && task.timer
        then TimedOut(s, t, task.(at := Failed, timer := false, error := ETIMEOUT)) else s
      case Continue(t, elapsed) => Continued(s, flag, t, elapsed)
  }

  lemma NextKeeps(s: State, flag: Flag, c: Command)
    requires Broken(s) == {}
    ensures Broken(Next(s, flag, c)) == {}
  {
    if c.Clear? {
      DesertKeeps(s);
      Told(s);
      ClearKeeps(Drained(Deserted(s)), s.history);
    } else if c.t in s.tasks {
      var task := s.tasks[c.t];
      match c {
        case Send(t, bytes, timeout) =>
          if task.at.Idle? && |bytes| <= s.msgSize { SendPassKeeps(s, flag, t, bytes, timeout); }
        case Jump(t, bytes) =>
          if task.at.Idle? && |bytes| <= s.msgSize && s.free != NIL {
            FreeFacts(s);
            ClaimTasks(s, t, task.(at := UrgentCopying, locals := Locals(s.free, bytes, |bytes|)));
          }
        case Receive(t, size, timeout) => if task.at.Idle? { RecvPassKeeps(s, flag, t, size, timeout); }
        case Expire(t) =>
          if task.at in {SendBlocked, RecvBlocked} {
            TimeoutKeeps(s, t, task.(at := Failed, timer := false, error := ETIMEOUT));
          }
        case Continue(t, elapsed) => ContinueKeeps(s, flag, t, elapsed);
      }
    }
  }

  /** The state a run of steps leads to from a new queue; the invariant holds there. */
  ghost function After(size: nat, pool: seq<Message>, flag: Flag, tasks: Tasks, schedule: seq<Command>): (s: State)
    requires Startable(size, pool, tasks)
    ensures Broken(s) == {}
  {
    if schedule == [] then PooledIsWhole(size, pool, tasks, |pool|); Pooled(size, pool, tasks, |pool|)
    else
      var before := After(size, pool, flag, tasks, schedule[..|schedule| - 1]);
      NextKeeps(before, flag, schedule[|schedule| - 1]);
      Next(before, flag, schedule[|schedule| - 1])
  }

  /** In every run the count is right and fits, and both ends are null together. */
  lemma RunCounts(size: nat, pool: seq<Message>, flag: Flag, tasks: Tasks, schedule: seq<Command>)
    requires Startable(size, pool, tasks)
    ensures var s := After(size, pool, flag, tasks, schedule);
            && (s.head == NIL <==> s.tail == NIL) && (s.head == NIL <==> s.entry == 0)
            && s.entry == |Replay(s.history)| <= ENTRY_MAX
  {
    NullTogether(After(size, pool, flag, tasks, schedule));
  }

  /** In every run nothing sent is received twice or vanishes. */
  lemma RunConserves(size: nat, pool: seq<Message>, flag: Flag, tasks: Tasks, schedule: seq<Command>)
    requires Startable(size, pool, tasks)
    ensures var h := After(size, pool, flag, tasks, schedule).history;
            multiset(Arrivals(h)) == multiset(Receipts(h)) + multiset(Discards(h)) + multiset(Replay(h))
  {
    EachOnce(After(size, pool, flag, tasks, schedule));
  }

  /** In every run no wakeup is lost: while a receiver is suspended, each queued message has a
      receiver that was woken and has not run yet, and while a sender is suspended, each free node
      has such a sender. Once all woken threads have run and all copies are finished, waiting
      receivers mean an empty queue and waiting senders a full one. */
  lemma NoLostWakeup(size: nat, pool: seq<Message>, flag: Flag, tasks: Tasks, schedule: seq<Command>)
    requires Startable(size, pool, tasks)
    ensures var s := After(size, pool, flag, tasks, schedule);
            && (s.recvWait != [] ==> s.entry <= |At(s.tasks, RecvWoken)|)
            && (s.sendWait != [] ==> |s.frees| <= |At(s.tasks, SendWoken)|)
    ensures var s := After(size, pool, flag, tasks, schedule);
            Settled(s) ==> (s.recvWait != [] ==> s.entry == 0) && (s.sendWait != [] ==> s.entry == s.maxMsgs)
  {
    var s := After(size, pool, flag, tasks, schedule);
    Intact(s);
    if Settled(s) {
      Quiescent(s);
      NullTogether(s);
    }
  }

  // Who gets what

  /** A message, the thread it goes to, and how many bytes of it that thread gets. */
  datatype Delivery = Delivery(thread: Thread, message: Message, size: nat)

  /** The bytes copied for a thread that asks for so many: no more than a message holds. */
  function Bounded(asked: nat, msgSize: nat): nat {
    if asked > msgSize then msgSize else asked
  }

  /** What a step takes off the list, and for whom. */
  ghost function TakenAt(s: State, c: Command): seq<Delivery>
    requires Broken(s) == {}
  {
    if && !c.Clear? && c.t in s.tasks && s.entry != 0
       && ((c.Receive? && s.tasks[c.t].at.Idle? && c.size > 0) || (c.Continue? && s.tasks[c.t].at.RecvWoken?))
    then
      FrontFacts(s);
      [Delivery(c.t, Replay(s.history)[0],
                Bounded(if c.Receive? then c.size else s.tasks[c.t].locals.size, s.msgSize))]
    else []
  }

  /** What a step copies out: the message its thread took before. */
  ghost function CopiedAt(s: State, c: Command): seq<Delivery> {
    if c.Continue? && c.t in s.tasks && s.tasks[c.t].at.RecvCopying? && c.t in s.promised
    then [Delivery(c.t, s.promised[c.t], Bounded(s.tasks[c.t].locals.size, s.msgSize))] else []
  }

  /** What thread t has taken and not copied out yet. */
  ghost function Pending(s: State, t: Thread): seq<Delivery> {
    if t in s.tasks && s.tasks[t].at.RecvCopying? && t in s.promised
    then [Delivery(t, s.promised[t], Bounded(s.tasks[t].locals.size, s.msgSize))] else []
  }

  /** What goes to thread t. */
  ghost function For(ds: seq<Delivery>, t: Thread): seq<Delivery> {
    if ds == [] then []
    else For(ds[..|ds| - 1], t) + if ds[|ds| - 1].thread == t then [ds[|ds| - 1]] else []
  }

  lemma ForMore(ds: seq<Delivery>, more: seq<Delivery>, t: Thread)
    requires |more| <= 1
    ensures For(ds + more, t) == For(ds, t) + For(more, t)
  {
    if more == [] {
      assert ds + more == ds;
    } else {
      assert (ds + more)[..|ds|] == ds && more[..0] == [];
      assert For(more, t) == For([], t) + if more[0].thread == t then [more[0]] else [];
    }
  }

  lemma ForOne(d: Delivery, t: Thread)
    ensures For([d], t) == if d.thread == t then [d] else []
  {
    assert [d][..0] == [];
  }

  lemma PassedOn<T>(a: seq<T>, a': seq<T>, b: seq<T>, b': seq<T>, p: seq<T>, p': seq<T>)
    requires a == b + p && p + a' == b' + p'
    ensures a + a' == b + b' + p'
  {
    assert a + a' == b + (p + a');
  }

  lemma {:induction false} FailedPending(tasks: Tasks, list: seq<Thread>, t: Thread)
    requires forall x :: x in list && x in tasks ==> tasks[x].at != RecvCopying
    ensures AllFailed(tasks, list).Keys == tasks.Keys
    ensures t in tasks ==> (AllFailed(tasks, list)[t].at == RecvCopying <==> tasks[t].at == RecvCopying)
    ensures t in tasks && tasks[t].at == RecvCopying ==> AllFailed(tasks, list)[t] == tasks[t]
    decreases |list|
  {
    if list != [] {
      var x := list[0];
      var after := if x in tasks then tasks[x := tasks[x].(at := Failed, timer := false, error := ERROR)] else tasks;
      forall y | y in list[1..] && y in after ensures after[y].at != RecvCopying {
        assert y in list;
      }
      FailedPending(after, list[1..], t);
    }
  }

  lemma {:induction false} DrainedPending(s: State)
    requires Broken(s) == {} && s.recvWait == [] && s.sendWait == []
    ensures Drained(s).tasks == s.tasks && Drained(s).promised == s.promised && Drained(s).msgSize == s.msgSize
    decreases s.entry
  {
    if s.entry != 0 {
      DropKeeps(s);
      DrainedPending(Dropped(s));
    }
  }

  lemma ResetPending(s: State, t: Thread)
    requires Broken(s) == {}
    ensures Pending(AfterReset(s), t) == Pending(s, t)
  {
    Intact(s);
    DesertKeeps(s);
    DrainedPending(Deserted(s));
    forall x | x in s.recvWait ensures x in s.tasks && s.tasks[x].at == RecvBlocked {
      assert x in Elements(s.recvWait);
    }
    forall x | x in s.sendWait ensures x in s.tasks && s.tasks[x].at == SendBlocked {
      assert x in Elements(s.sendWait);
    }
    FailedPending(s.tasks, s.recvWait, t);
    forall x | x in s.sendWait && x in AllFailed(s.tasks, s.recvWait)
      ensures AllFailed(s.tasks, s.recvWait)[x].at != RecvCopying
    {
      FailedPending(s.tasks, s.recvWait, x);
    }
    FailedPending(AllFailed(s.tasks, s.recvWait), s.sendWait, t);
  }

  /** Waking a suspended thread is no business of a thread that is copying. */
  lemma RousedPending(s: State, s': State, u: Thread, list: seq<Thread>, p: Point, t: Thread)
    requires u in s.tasks && s.tasks[u].at != RecvCopying && p != RecvCopying
    requires forall x :: x in list && x in s.tasks ==> s.tasks[x].at in {SendBlocked, RecvBlocked}
    requires s'.tasks == Roused(s.tasks[u := s.tasks[u].(at := Idle)], list, p) && s'.promised == s.promised[u := []]
    requires s'.msgSize == s.msgSize
    ensures Pending(s', t) == Pending(s, t)
  {
  }

  lemma LinkPending(s: State, u: Thread, t: Thread)
    requires Broken(s) == {} && u in s.tasks && s.tasks[u].at in {SendLinking, UrgentLinking}
    ensures s.tasks[u].locals.msg in s.nodes && (s.tail == NIL || (s.tail >= 0 && s.tail in s.nodes))
    ensures Pending(Linked(s, u), t) == Pending(s, t)
  {
    LinkKeeps(s, u);
    Intact(s);
    forall x | x in s.recvWait ensures x in s.tasks && s.tasks[x].at == RecvBlocked {
      assert x in Elements(s.recvWait);
    }
    RousedPending(s, Linked(s, u), u, s.recvWait, RecvWoken, t);
  }

  lemma FreePending(s: State, u: Thread, t: Thread)
    requires Broken(s) == {} && u in s.tasks && s.tasks[u].at == RecvFreeing
    ensures s.tasks[u].locals.msg in s.nodes && Pending(Freed(s, u), t) == Pending(s, t)
  {
    FreeKeeps(s, u);
    Intact(s);
    forall x | x in s.sendWait ensures x in s.tasks && s.tasks[x].at == SendBlocked {
      assert x in Elements(s.sendWait);
    }
    RousedPending(s, Freed(s, u), u, s.sendWait, SendWoken, t);
  }

  lemma SendPassPending(s: State, flag: Flag, u: Thread, bytes: Message, timeout: int, t: Thread)
    requires Broken(s) == {} && u in s.tasks && s.tasks[u].at != RecvCopying
    ensures Pending(SendPass(s, flag, u, bytes, timeout), t) == Pending(s, t)
  {
  }

  lemma RecvPassPending(s: State, flag: Flag, u: Thread, size: nat, timeout: int, t: Thread)
    requires Broken(s) == {} && u in s.tasks && s.tasks[u].at != RecvCopying
    ensures s.entry != 0 ==> Replay(s.history) != []
    ensures Pending(RecvPass(s, flag, u, size, timeout), t) ==
            if u == t && s.entry != 0 then [Delivery(t, Replay(s.history)[0], Bounded(size, s.msgSize))]
            else Pending(s, t)
  {
    if s.entry != 0 {
      FrontFacts(s);
    }
  }

  lemma ContinuePending(s: State, flag: Flag, u: Thread, elapsed: nat, t: Thread)
    requires Broken(s) == {} && u in s.tasks
    ensures s.entry != 0 ==> Replay(s.history) != []
    ensures Pending(Continued(s, flag, u, elapsed), t) ==
            if u == t && s.tasks[u].at.RecvWoken? && s.entry != 0 then
              [Delivery(t, Replay(s.history)[0], Bounded(s.tasks[t].locals.size, s.msgSize))]
            else if u == t && s.tasks[u].at.RecvCopying? then [] else Pending(s, t)
  {
    var task := s.tasks[u];
    if s.entry != 0 {
      FrontFacts(s);
    }
    match task.at {
      case SendWoken => SendPassPending(s, flag, u, task.locals.buffer, Remaining(task.timeout, elapsed), t);
      case SendCopying => CopyInKeeps(s, u);
      case UrgentCopying => CopyInKeeps(s, u);
      case SendLinking => LinkPending(s, u, t);
      case UrgentLinking => LinkPending(s, u, t);
      case RecvWoken => RecvPassPending(s, flag, u, task.locals.size, Remaining(task.timeout, elapsed), t);
      case RecvFreeing => FreePending(s, u, t);
      case _ =>
    }
  }

  /** One step: what a thread has pending grows by what it takes and shrinks by what it copies out. */
  lemma StepDelivers(s: State, flag: Flag, c: Command, t: Thread)
    requires Broken(s) == {}
    ensures Pending(s, t) + For(TakenAt(s, c), t) == For(CopiedAt(s, c), t) + Pending(Next(s, flag, c), t)
  {
    if c.Clear? {
      ResetPending(s, t);
    } else if c.t in s.tasks {
      if c.Continue? {
        ContinueDelivers(s, flag, c, t);
      } else if c.Send? && s.tasks[c.t].at.Idle? {
        SendPassPending(s, flag, c.t, c.bytes, c.timeout, t);
      } else if c.Receive? && s.tasks[c.t].at.Idle? {
        RecvPassPending(s, flag, c.t, c.size, c.timeout, t);
        TakenFor(s, c, t);
      }
    }
  }

  lemma TakenFor(s: State, c: Command, t: Thread)
    requires Broken(s) == {}
    ensures For(TakenAt(s, c), t) == if TakenAt(s, c) != [] && c.t == t then TakenAt(s, c) else []
  {
    if TakenAt(s, c) != [] {
      ForOne(TakenAt(s, c)[0], t);
    }
  }

  lemma ContinueDelivers(s: State, flag: Flag, c: Command, t: Thread)
    requires Broken(s) == {} && c.Continue? && c.t in s.tasks
    ensures Pending(s, t) + For(TakenAt(s, c), t) ==
            For(CopiedAt(s, c), t) + Pending(Continued(s, flag, c.t, c.elapsed), t)
  {
    Intact(s);
    HolderFacts(s.msgSize, s.tasks, s.owner, s.nodes, s.promised, c.t);
    ContinuePending(s, flag, c.t, c.elapsed, t);
    TakenFor(s, c, t);
    if s.tasks[c.t].at.RecvCopying? {
      ForOne(Delivery(c.t, s.promised[c.t], Bounded(s.tasks[c.t].locals.size, s.msgSize)), t);
    }
  }

  /** What a run takes off the list, and what it copies out, in order. */
  ghost function Takings(size: nat, pool: seq<Message>, flag: Flag, tasks: Tasks, schedule: seq<Command>): seq<Delivery>
    requires Startable(size, pool, tasks)
  {
    if schedule == [] then []
    else
      var front := schedule[..|schedule| - 1];
      Takings(size, pool, flag, tasks, front) + TakenAt(After(size, pool, flag, tasks, front), schedule[|schedule| - 1])
  }

  ghost function Copies(size: nat, pool: seq<Message>, flag: Flag, tasks: Tasks, schedule: seq<Command>): seq<Delivery>
    requires Startable(size, pool, tasks)
  {
    if schedule == [] then []
    else
      var front := schedule[..|schedule| - 1];
      Copies(size, pool, flag, tasks, front) + CopiedAt(After(size, pool, flag, tasks, front), schedule[|schedule| - 1])
  }

  /** In every run each thread copies out exactly the messages it took off the list, in that
      order, however the copies of different threads overlap. */
  lemma {:induction false} DeliveredToTaker(size: nat, pool: seq<Message>, flag: Flag, tasks: Tasks,
                                            schedule: seq<Command>, t: Thread)
    requires Startable(size, pool, tasks)
    ensures For(Takings(size, pool, flag, tasks, schedule), t) ==
            For(Copies(size, pool, flag, tasks, schedule), t) + Pending(After(size, pool, flag, tasks, schedule), t)
  {
    if schedule == [] {
      PooledHistory(size, pool, tasks, |pool|);
    } else {
      var front, c := schedule[..|schedule| - 1], schedule[|schedule| - 1];
      var s := After(size, pool, flag, tasks, front);
      DeliveredToTaker(size, pool, flag, tasks, front, t);
      StepDelivers(s, flag, c, t);
      ForMore(Takings(size, pool, flag, tasks, front), TakenAt(s, c), t);
      ForMore(Copies(size, pool, flag, tasks, front), CopiedAt(s, c), t);
      PassedOn(For(Takings(size, pool, flag, tasks, front), t), For(TakenAt(s, c), t),
               For(Copies(size, pool, flag, tasks, front), t), For(CopiedAt(s, c), t),
               Pending(s, t), Pending(After(size, pool, flag, tasks, schedule), t));
    }
  }

  ghost function Messages(ds: seq<Delivery>): seq<Message> {
    if ds == [] then [] else Messages(ds[..|ds| - 1]) + [ds[|ds| - 1].message]
  }

  lemma MessagesMore(ds: seq<Delivery>, more: seq<Delivery>)
    requires |more| <= 1
    ensures Messages(ds + more) == Messages(ds) + Messages(more)
  {
    if more == [] {
      assert ds + more == ds;
    } else {
      assert (ds + more)[..|ds|] == ds && more[..0] == [];
    }
  }

  lemma LinkReceipts(s: State, flag: Flag, c: Command)
    requires Broken(s) == {} && c.Continue? && c.t in s.tasks && s.tasks[c.t].at in {SendLinking, UrgentLinking}
    ensures Receipts(Continued(s, flag, c.t, c.elapsed).history) == Receipts(s.history)
    ensures TakenAt(s, c) == []
  {
    var task := s.tasks[c.t];
    LinkKeeps(s, c.t);
    OneMoreReceipt(s.history, if task.at.SendLinking? then Sent(task.locals.buffer) else Urged(task.locals.buffer));
  }

  lemma ContinueReceipts(s: State, flag: Flag, c: Command)
    requires Broken(s) == {} && c.Continue? && c.t in s.tasks
    ensures Receipts(Continued(s, flag, c.t, c.elapsed).history) == Receipts(s.history) + Messages(TakenAt(s, c))
  {
    if s.tasks[c.t].at in {SendLinking, UrgentLinking} {
      LinkReceipts(s, flag, c);
    } else if s.entry != 0 && s.tasks[c.t].at.RecvWoken? {
      FrontFacts(s);
      OneMoreReceipt(s.history, Taken(Replay(s.history)[0]));
      assert TakenAt(s, c)[..0] == [];
    } else {
      assert Continued(s, flag, c.t, c.elapsed).history == s.history;
    }
  }

  lemma StepReceipts(s: State, flag: Flag, c: Command)
    requires Broken(s) == {}
    ensures Receipts(Next(s, flag, c).history) == Receipts(s.history) + Messages(TakenAt(s, c))
  {
    if c.Clear? {
      OneMoreReceipt(s.history, Cleared);
    } else if c.t in s.tasks {
      if c.Continue? {
        ContinueReceipts(s, flag, c);
      } else if c.Receive? && s.tasks[c.t].at.Idle? && c.size > 0 && s.entry != 0 {
        FrontFacts(s);
        OneMoreReceipt(s.history, Taken(Replay(s.history)[0]));
        assert TakenAt(s, c)[..0] == [];
      } else {
        assert Next(s, flag, c).history == s.history;
      }
    }
  }

  /** What a run takes off the list is what its history says is received. */
  lemma {:induction false} TakingsAreReceipts(size: nat, pool: seq<Message>, flag: Flag, tasks: Tasks,
                                              schedule: seq<Command>)
    requires Startable(size, pool, tasks)
    ensures Messages(Takings(size, pool, flag, tasks, schedule)) ==
            Receipts(After(size, pool, flag, tasks, schedule).history)
  {
    if schedule == [] {
      PooledHistory(size, pool, tasks, |pool|);
    } else {
      var front, c := schedule[..|schedule| - 1], schedule[|schedule| - 1];
      var s := After(size, pool, flag, tasks, front);
      TakingsAreReceipts(size, pool, flag, tasks, front);
      StepReceipts(s, flag, c);
      MessagesMore(Takings(size, pool, flag, tasks, front), TakenAt(s, c));
    }
  }

  /** The bytes given out are those of the messages copied out, exactly as many as that thread
      gets: the front of the message, or the whole of it and stale bytes behind it. */
  ghost predicate Given(given: seq<Delivery>, copies: seq<Delivery>) {
    |given| == |copies| && forall i :: 0 <= i < |given| ==>
      && given[i].thread == copies[i].thread && |given[i].message| == given[i].size == copies[i].size
      && (given[i].message <= copies[i].message || copies[i].message <= given[i].message)
  }

  lemma GivenMore(given: seq<Delivery>, copies: seq<Delivery>, given': seq<Delivery>, copies': seq<Delivery>)
    requires Given(given, copies) && Given(given', copies')
    ensures Given(given + given', copies + copies')
  {
  }

  ghost predicate Plain(c: Command) {
    !c.Jump? && !c.Clear?
  }

  /** Threads with an urgent message to link. */
  ghost function Urgents(tasks: Tasks): set<Thread> {
    set t | t in tasks && tasks[t].at in {UrgentCopying, UrgentLinking}
  }

  /** Nothing urgent has happened or is under way. */
  ghost predicate Calm(history: seq<Event<Message>>, tasks: Tasks) {
    Ordinary(history) && Urgents(tasks) == {}
  }

  lemma CalmStep(tasks: Tasks, t: Thread, task: Task<Locals>)
    requires Urgents(tasks) == {} && task.at !in {UrgentCopying, UrgentLinking}
    ensures Urgents(tasks[t := task]) == {}
  {
    var tasks' := tasks[t := task];
    forall x | x in tasks' ensures x !in Urgents(tasks') {
      assert x !in Urgents(tasks);
    }
  }

  lemma CalmRoused(tasks: Tasks, list: seq<Thread>, p: Point)
    requires Urgents(tasks) == {} && p in {SendWoken, RecvWoken}
    ensures Urgents(Roused(tasks, list, p)) == {}
  {
    if list != [] && list[0] in tasks {
      CalmStep(tasks, list[0], tasks[list[0]].(at := p, timer := false));
    }
  }

  lemma SendPassCalm(s: State, flag: Flag, t: Thread, bytes: Message, timeout: int)
    requires Broken(s) == {} && t in s.tasks && Calm(s.history, s.tasks)
    ensures var s' := SendPass(s, flag, t, bytes, timeout); Calm(s'.history, s'.tasks)
  {
    CalmStep(s.tasks, t, SendPass(s, flag, t, bytes, timeout).tasks[t]);
  }

  lemma RecvPassCalm(s: State, flag: Flag, t: Thread, size: nat, timeout: int)
    requires Broken(s) == {} && t in s.tasks && Calm(s.history, s.tasks)
    ensures var s' := RecvPass(s, flag, t, size, timeout); Calm(s'.history, s'.tasks)
  {
    CalmStep(s.tasks, t, RecvPass(s, flag, t, size, timeout).tasks[t]);
    if s.entry != 0 {
      FrontFacts(s);
      OneMoreOrdinary(s.history, Taken(Replay(s.history)[0]));
    }
  }

  lemma LinkCalm(s: State, t: Thread)
    requires Broken(s) == {} && t in s.tasks && s.tasks[t].at == SendLinking && Calm(s.history, s.tasks)
    ensures s.tasks[t].locals.msg in s.nodes && (s.tail == NIL || (s.tail >= 0 && s.tail in s.nodes))
    ensures Calm(Linked(s, t).history, Linked(s, t).tasks)
  {
    LinkKeeps(s, t);
    OneMoreOrdinary(s.history, Sent(s.tasks[t].locals.buffer));
    var task := s.tasks[t].(at := Idle);
    CalmStep(s.tasks, t, task);
    CalmRoused(s.tasks[t := task], s.recvWait, RecvWoken);
  }

  lemma FreeCalm(s: State, t: Thread)
    requires Broken(s) == {} && t in s.tasks && s.tasks[t].at == RecvFreeing && Calm(s.history, s.tasks)
    ensures s.tasks[t].locals.msg in s.nodes && Calm(Freed(s, t).history, Freed(s, t).tasks)
  {
    FreeKeeps(s, t);
    var task := s.tasks[t].(at := Idle);
    CalmStep(s.tasks, t, task);
    CalmRoused(s.tasks[t := task], s.sendWait, SendWoken);
  }

  lemma ContinueCalm(s: State, flag: Flag, t: Thread, elapsed: nat)
    requires Broken(s) == {} && t in s.tasks && Calm(s.history, s.tasks)
    ensures var s' := Continued(s, flag, t, elapsed); Calm(s'.history, s'.tasks)
  {
    var task := s.tasks[t];
    assert t !in Urgents(s.tasks);
    match task.at {
      case SendWoken => SendPassCalm(s, flag, t, task.locals.buffer, Remaining(task.timeout, elapsed));
      case SendCopying => CopyInKeeps(s, t); CalmStep(s.tasks, t, CopiedIn(s, t).tasks[t]);
      case SendLinking => LinkCalm(s, t);
      case RecvWoken => RecvPassCalm(s, flag, t, task.locals.size, Remaining(task.timeout, elapsed));
      case RecvCopying => CalmStep(s.tasks, t, task.(at := RecvFreeing));
      case RecvFreeing => FreeCalm(s, t);
      case Failed => CalmStep(s.tasks, t, task.(at := Idle));
      case _ =>
    }
  }

  /** A step without urgent send or reset adds at most one send or one receive. */
  lemma PlainStep(s: State, flag: Flag, c: Command)
    requires Broken(s) == {} && Plain(c) && Calm(s.history, s.tasks)
    ensures Calm(Next(s, flag, c).history, Next(s, flag, c).tasks)
  {
    if c.t in s.tasks {
      var task := s.tasks[c.t];
      match c {
        case Send(t, bytes, timeout) => SendPassCalm(s, flag, t, bytes, timeout);
        case Receive(t, size, timeout) => RecvPassCalm(s, flag, t, size, timeout);
        case Expire(t) => CalmStep(s.tasks, t, task.(at := Failed, timer := false, error := ETIMEOUT));
        case Continue(t, elapsed) => ContinueCalm(s, flag, t, elapsed);
      }
    }
  }

  lemma {:induction false} PlainHistory(size: nat, pool: seq<Message>, flag: Flag, tasks: Tasks, schedule: seq<Command>)
    requires Startable(size, pool, tasks) && forall i :: 0 <= i < |schedule| ==> Plain(schedule[i])
    ensures var s := After(size, pool, flag, tasks, schedule); Calm(s.history, s.tasks)
  {
    if schedule == [] {
      PooledHistory(size, pool, tasks, |pool|);
      assert Urgents(tasks) == {};
    } else {
      var before := schedule[..|schedule| - 1];
      PlainHistory(size, pool, flag, tasks, before);
      PlainStep(After(size, pool, flag, tasks, before), flag, schedule[|schedule| - 1]);
    }
  }

  /** In every run without urgent sends and resets, messages are received in the order they
      were linked, whoever sends and receives and however their copies overlap. */
  lemma ReceivedInOrder(size: nat, pool: seq<Message>, flag: Flag, tasks: Tasks, schedule: seq<Command>)
    requires Startable(size, pool, tasks) && forall i :: 0 <= i < |schedule| ==> Plain(schedule[i])
    ensures var h := After(size, pool, flag, tasks, schedule).history; Arrivals(h) == Receipts(h) + Replay(h)
  {
    PlainHistory(size, pool, flag, tasks, schedule);
    Told(After(size, pool, flag, tasks, schedule));
    FifoOrder(After(size, pool, flag, tasks, schedule).history);
  }

  // What a call does first

  /** A pass of the send loop: on with the first free node, back with an error, or waiting with the
      timer armed if the timeout is not for ever. */
  lemma SendPassIs(s: State, flag: Flag, t: Thread, bytes: Message, timeout: int)
    requires Broken(s) == {} && t in s.tasks && s.tasks[t].at in {Idle, SendWoken} && |bytes| <= s.msgSize
    ensures var s' := SendPass(s, flag, t, bytes, timeout);
            && t in s'.tasks && s'.tasks == s.tasks[t := s'.tasks[t]] && s'.msgs == s.msgs && s'.history == s.history
            && s'.tasks[t].priority == s.tasks[t].priority
            && if s.frees != [] then
                 && s'.tasks[t].at == SendCopying && s'.tasks[t].locals == Locals(s.free, bytes, |bytes|)
                 && s'.frees == s.frees[1..] && s'.sendWait == s.sendWait
               else if timeout == 0 then s'.tasks[t].at == Idle && s'.sendWait == s.sendWait && s'.frees == s.frees
               else
                 && s'.tasks[t].at == SendBlocked && s'.tasks[t].locals.buffer == bytes && s'.frees == s.frees
                 && s'.tasks[t].timeout == timeout && (s'.tasks[t].timer <==> timeout > 0)
                 && s'.tasks[t].error == EOK && t in s'.sendWait && Without(s'.sendWait, t) == s.sendWait
                 && (flag.Fifo? ==> s'.sendWait == s.sendWait + [t])
  {
    Intact(s);
    FreeHead(s);
    assert t !in At(s.tasks, SendBlocked) && t !in Elements(s.sendWait);
    if s.free == NIL && timeout != 0 {
      var tasks := SendPass(s, flag, t, bytes, timeout).tasks;
      EnqueuedKeeps(s.sendWait, tasks, t, flag);
      EnqueuedFacts(s.sendWait, tasks, t, flag);
      assert t in Elements(Enqueued(s.sendWait, tasks, t, flag));
    }
  }

  /** A send of a message that is too long, or that may not wait and finds no node, changes nothing;
      any other makes a first pass. */
  lemma SendStartIs(s: State, flag: Flag, t: Thread, bytes: Message, timeout: int)
    requires Broken(s) == {} && t in s.tasks && s.tasks[t].at == Idle
    ensures SendStart(s, flag, t, bytes, timeout) ==
            if |bytes| <= s.msgSize && (s.frees != [] || timeout != 0) then SendPass(s, flag, t, bytes, timeout) else s
  {
    Intact(s);
    FreeHead(s);
  }

  /** An urgent send goes on with the first free node, or nothing happens. */
  lemma UrgentStartIs(s: State, t: Thread, bytes: Message)
    requires Broken(s) == {} && t in s.tasks && s.tasks[t].at == Idle
    ensures var s' := UrgentStart(s, t, bytes);
            if |bytes| > s.msgSize || s.frees == [] then s' == s
            else
              && t in s'.tasks && s'.tasks[t].at == UrgentCopying
              && s'.tasks[t].locals == Locals(s.free, bytes, |bytes|)
              && s'.tasks == s.tasks[t := s'.tasks[t]] && s'.frees == s.frees[1..] && s'.msgs == s.msgs
              && s'.history == s.history
  {
    Intact(s);
    FreeHead(s);
  }

  /** A pass of the receive loop: on with the first message, back with an error, or waiting. */
  lemma RecvPassIs(s: State, flag: Flag, t: Thread, size: nat, timeout: int)
    requires Broken(s) == {} && t in s.tasks && s.tasks[t].at in {Idle, RecvWoken}
    ensures var s' := RecvPass(s, flag, t, size, timeout);
            && t in s'.tasks && s'.tasks == s.tasks[t := s'.tasks[t]] && s'.frees == s.frees
            && s'.tasks[t].priority == s.tasks[t].priority
            && if s.msgs != [] then
                 && s'.tasks[t].at == RecvCopying && s'.tasks[t].locals == Locals(s.msgs[0], [], size)
                 && s'.msgs == s.msgs[1..] && s'.recvWait == s.recvWait && s'.entry == s.entry - 1
               else if timeout == 0 then
                 s'.tasks[t].at == Idle && s'.tasks[t].error == ETIMEOUT && s'.recvWait == s.recvWait
               else
                 && s'.tasks[t].at == RecvBlocked && s'.tasks[t].locals.size == size
                 && s'.tasks[t].timeout == timeout && (s'.tasks[t].timer <==> timeout > 0)
                 && s'.tasks[t].error == EOK && t in s'.recvWait && Without(s'.recvWait, t) == s.recvWait
                 && (flag.Fifo? ==> s'.recvWait == s.recvWait + [t])
  {
    Intact(s);
    Ends(s);
    assert t !in At(s.tasks, RecvBlocked) && t !in Elements(s.recvWait);
    if s.entry == 0 && timeout != 0 {
      var tasks := RecvPass(s, flag, t, size, timeout).tasks;
      EnqueuedKeeps(s.recvWait, tasks, t, flag);
      EnqueuedFacts(s.recvWait, tasks, t, flag);
      assert t in Elements(Enqueued(s.recvWait, tasks, t, flag));
    }
  }

  lemma {:induction false} DrainedIs(s: State)
    requires Broken(s) == {} && s.recvWait == [] && s.sendWait == []
    ensures Drained(s).msgs == [] && Elements(Drained(s).frees) == Elements(s.frees) + Elements(s.msgs)
    ensures Drained(s).recvWait == [] && Drained(s).sendWait == []
    decreases s.entry
  {
    Intact(s);
    if s.entry != 0 {
      FrontFacts(s);
      Ends(s);
      DropKeeps(s);
      DrainedIs(Dropped(s));
      HeadFacts(s.msgs);
      ConsFacts(s.msgs[0], s.frees);
    }
  }

  /** A reset leaves nothing queued and nobody waiting: the nodes are free, and each waiter fails
      with an error. */
  lemma ResetIs(s: State, t: Thread)
    requires Broken(s) == {} && t in s.tasks
    ensures var s' := AfterReset(s);
            && s'.msgs == [] && s'.entry == 0 && Replay(s'.history) == [] && s'.recvWait == [] && s'.sendWait == []
            && Elements(s'.frees) == Elements(s.frees) + Elements(s.msgs) && t in s'.tasks
            && var task := s.tasks[t];
               s'.tasks[t] == if t in s.recvWait || t in s.sendWait
                              then Task(Failed, task.priority, false, ERROR, task.timeout, task.locals) else task
  {
    DesertKeeps(s);
    DrainedIs(Deserted(s));
    DrainedPending(Deserted(s));
    OneMore(s.history, Cleared);
    AllFailedIs(s.tasks, s.recvWait, t);
    AllFailedIs(AllFailed(s.tasks, s.recvWait), s.sendWait, t);
  }

  // What the callers asked for

  /** Thread t, doing nothing, makes a call. */
  ghost predicate Calls(s: State, c: Command, t: Thread) {
    (c.Send? || c.Jump? || c.Receive?) && c.t == t && t in s.tasks && s.tasks[t].at == Idle
  }

  /** The call thread t made last; Clear if it made none. */
  ghost function LastCall(size: nat, pool: seq<Message>, flag: Flag, tasks: Tasks, schedule: seq<Command>, t: Thread):
    Command
    requires Startable(size, pool, tasks)
  {
    if schedule == [] then Clear
    else
      var front, c := schedule[..|schedule| - 1], schedule[|schedule| - 1];
      if Calls(After(size, pool, flag, tasks, front), c, t) then c else LastCall(size, pool, flag, tasks, front, t)
  }

  /** Inside a call a thread carries what it was called with, and nothing else. */
  ghost predicate Carries(task: Task<Locals>, c: Command) {
    match task.at
    case SendBlocked => c.Send? && task.locals.buffer == c.bytes
    case SendWoken => c.Send? && task.locals.buffer == c.bytes
    case SendCopying => c.Send? && task.locals.buffer == c.bytes
    case SendLinking => c.Send? && task.locals.buffer == c.bytes
    case UrgentCopying => c.Jump? && task.locals.buffer == c.bytes
    case UrgentLinking => c.Jump? && task.locals.buffer == c.bytes
    case RecvBlocked => c.Receive? && task.locals.size == c.size
    case RecvWoken => c.Receive? && task.locals.size == c.size
    case RecvCopying => c.Receive? && task.locals.size == c.size
    case RecvFreeing => c.Receive?
    case _ => true
  }

  lemma RousedCarries(tasks: Tasks, list: seq<Thread>, blocked: Point, woken: Point, items: nat, t: Thread, c: Command)
    requires Awaits(list, tasks, blocked, woken, items) && t in tasks && Carries(tasks[t], c)
    requires (blocked == SendBlocked && woken == SendWoken) || (blocked == RecvBlocked && woken == RecvWoken)
    ensures t in Roused(tasks, list, woken) && Carries(Roused(tasks, list, woken)[t], c)
  {
    RousedIs(tasks, list, woken, t);
    if list != [] {
      assert list[0] in Elements(list);
    }
  }

  lemma LinkCarries(s: State, u: Thread, t: Thread, c: Command)
    requires Broken(s) == {} && u in s.tasks && s.tasks[u].at in {SendLinking, UrgentLinking}
    requires t in s.tasks && Carries(s.tasks[t], c)
    ensures s.tasks[u].locals.msg in s.nodes && (s.tail == NIL || (s.tail >= 0 && s.tail in s.nodes))
    ensures t in Linked(s, u).tasks && Carries(Linked(s, u).tasks[t], c)
  {
    LinkKeeps(s, u);
    Intact(s);
    var task := s.tasks[u].(at := Idle);
    AwaitsStep(s.recvWait, s.tasks, RecvBlocked, RecvWoken, s.entry, u, task, s.entry);
    RousedCarries(s.tasks[u := task], s.recvWait, RecvBlocked, RecvWoken, s.entry, t, c);
  }

  lemma FreeCarries(s: State, u: Thread, t: Thread, c: Command)
    requires Broken(s) == {} && u in s.tasks && s.tasks[u].at == RecvFreeing && t in s.tasks && Carries(s.tasks[t], c)
    ensures s.tasks[u].locals.msg in s.nodes && t in Freed(s, u).tasks && Carries(Freed(s, u).tasks[t], c)
  {
    FreeKeeps(s, u);
    Intact(s);
    var task := s.tasks[u].(at := Idle);
    AwaitsStep(s.sendWait, s.tasks, SendBlocked, SendWoken, |s.frees|, u, task, |s.frees|);
    RousedCarries(s.tasks[u := task], s.sendWait, SendBlocked, SendWoken, |s.frees|, t, c);
  }

  lemma SendPassCarries(s: State, flag: Flag, u: Thread, bytes: Message, timeout: int, t: Thread, c: Command)
    requires Broken(s) == {} && u in s.tasks && t in s.tasks && Carries(s.tasks[t], c)
    requires u == t ==> c.Send? && c.bytes == bytes
    ensures var s' := SendPass(s, flag, u, bytes, timeout); t in s'.tasks && Carries(s'.tasks[t], c)
  {
  }

  lemma RecvPassCarries(s: State, flag: Flag, u: Thread, size: nat, timeout: int, t: Thread, c: Command)
    requires Broken(s) == {} && u in s.tasks && t in s.tasks && Carries(s.tasks[t], c)
    requires u == t ==> c.Receive? && c.size == size
    ensures var s' := RecvPass(s, flag, u, size, timeout); t in s'.tasks && Carries(s'.tasks[t], c)
  {
  }

  lemma CopyInCarries(s: State, u: Thread, t: Thread, c: Command)
    requires Broken(s) == {} && u in s.tasks && s.tasks[u].at in {SendCopying, UrgentCopying}
    requires t in s.tasks && Carries(s.tasks[t], c)
    ensures s.tasks[u].locals.msg in s.nodes
    ensures |s.tasks[u].locals.buffer| <= |s.nodes[s.tasks[u].locals.msg].data|
    ensures t in CopiedIn(s, u).tasks && Carries(CopiedIn(s, u).tasks[t], c)
  {
    CopyInKeeps(s, u);
  }

  lemma ContinueCarries(s: State, flag: Flag, u: Thread, elapsed: nat, t: Thread, c: Command)
    requires Broken(s) == {} && u in s.tasks && t in s.tasks && Carries(s.tasks[t], c)
    ensures var s' := Continued(s, flag, u, elapsed); t in s'.tasks && Carries(s'.tasks[t], c)
  {
    var task := s.tasks[u];
    match task.at {
      case SendWoken => SendPassCarries(s, flag, u, task.locals.buffer, Remaining(task.timeout, elapsed), t, c);
      case RecvWoken => RecvPassCarries(s, flag, u, task.locals.size, Remaining(task.timeout, elapsed), t, c);
      case SendLinking => LinkCarries(s, u, t, c);
      case UrgentLinking => LinkCarries(s, u, t, c);
      case RecvFreeing => FreeCarries(s, u, t, c);
      case SendCopying => CopyInCarries(s, u, t, c);
      case UrgentCopying => CopyInCarries(s, u, t, c);
      case _ =>
    }
  }

  lemma ResetCarries(s: State, t: Thread, c: Command)
    requires Broken(s) == {} && t in s.tasks && Carries(s.tasks[t], c)
    ensures t in AfterReset(s).tasks && Carries(AfterReset(s).tasks[t], c)
  {
    DesertKeeps(s);
    DrainedPending(Deserted(s));
    AllFailedIs(s.tasks, s.recvWait, t);
    AllFailedIs(AllFailed(s.tasks, s.recvWait), s.sendWait, t);
  }

  lemma StepCarries(s: State, flag: Flag, c: Command, t: Thread, call: Command)
    requires Broken(s) == {} && t in s.tasks && Carries(s.tasks[t], call)
    ensures var s' := Next(s, flag, c); t in s'.tasks && Carries(s'.tasks[t], if Calls(s, c, t) then c else call)
  {
    if c.Clear? {
      ResetCarries(s, t, call);
    } else if c.Continue? && c.t in s.tasks {
      ContinueCarries(s, flag, c.t, c.elapsed, t, call);
    }
  }

  /** In every run a thread inside a call has exactly the bytes, and the kind, of the call it made
      last, or asks for as many bytes. */
  lemma {:induction false} CallsCarried(size: nat, pool: seq<Message>, flag: Flag, tasks: Tasks, schedule: seq<Command>,
                                        t: Thread)
    requires Startable(size, pool, tasks) && t in tasks
    ensures var s := After(size, pool, flag, tasks, schedule);
            t in s.tasks && Carries(s.tasks[t], LastCall(size, pool, flag, tasks, schedule, t))
  {
    if schedule == [] {
      PooledHistory(size, pool, tasks, |pool|);
    } else {
      var front := schedule[..|schedule| - 1];
      CallsCarried(size, pool, flag, tasks, front, t);
      StepCarries(After(size, pool, flag, tasks, front), flag, schedule[|schedule| - 1], t,
                  LastCall(size, pool, flag, tasks, front, t));
    }
  }

  /** The thread that links its message next, if that is what command c does. */
  ghost predicate Links(s: State, c: Command) {
    c.Continue? && c.t in s.tasks && s.tasks[c.t].at in {SendLinking, UrgentLinking}
  }

  lemma NextThreads(s: State, flag: Flag, c: Command)
    requires Broken(s) == {}
    ensures Next(s, flag, c).tasks.Keys == s.tasks.Keys
  {
    if c.Clear? {
      DesertKeeps(s);
      DrainedPending(Deserted(s));
      FailedThreads(s.tasks, s.recvWait);
      FailedThreads(AllFailed(s.tasks, s.recvWait), s.sendWait);
    } else if c.Continue? && c.t in s.tasks {
      match s.tasks[c.t].at {
        case SendLinking => LinkKeeps(s, c.t);
        case UrgentLinking => LinkKeeps(s, c.t);
        case RecvFreeing => FreeKeeps(s, c.t);
        case SendCopying => CopyInKeeps(s, c.t);
        case UrgentCopying => CopyInKeeps(s, c.t);
        case _ =>
      }
    }
  }

  lemma {:induction false} ThreadsKept(size: nat, pool: seq<Message>, flag: Flag, tasks: Tasks, schedule: seq<Command>)
    requires Startable(size, pool, tasks)
    ensures After(size, pool, flag, tasks, schedule).tasks.Keys == tasks.Keys
  {
    if schedule == [] {
      PooledHistory(size, pool, tasks, |pool|);
    } else {
      var front := schedule[..|schedule| - 1];
      ThreadsKept(size, pool, flag, tasks, front);
      NextThreads(After(size, pool, flag, tasks, front), flag, schedule[|schedule| - 1]);
    }
  }

  /** What linking adds to the history. */
  ghost function LinkEvent(s: State, c: Command): Event<Message>
    requires Links(s, c)
  {
    var m := s.tasks[c.t].locals.buffer;
    if s.tasks[c.t].at == UrgentLinking then Urged(m) else Sent(m)
  }

  lemma LinkTells(s: State, flag: Flag, c: Command)
    requires Broken(s) == {} && Links(s, c)
    ensures Next(s, flag, c).history == s.history + [LinkEvent(s, c)]
  {
    LinkKeeps(s, c.t);
  }

  lemma LinkReplays(s: State, flag: Flag, c: Command)
    requires Broken(s) == {} && Links(s, c)
    ensures var m, before := s.tasks[c.t].locals.buffer, Replay(s.history);
            Replay(Next(s, flag, c).history) ==
            if s.tasks[c.t].at == UrgentLinking then [m] + before else before + [m]
  {
    LinkTells(s, flag, c);
    OneMore(s.history, LinkEvent(s, c));
  }

  /** In every run a thread that links its message puts the bytes it was called with in front of
      all that is queued if the call was urgent, and behind all of it if not. */
  lemma LinkedWhere(size: nat, pool: seq<Message>, flag: Flag, tasks: Tasks, schedule: seq<Command>, c: Command)
    requires Startable(size, pool, tasks) && Links(After(size, pool, flag, tasks, schedule), c)
    ensures var call := LastCall(size, pool, flag, tasks, schedule, c.t);
            var before := Replay(After(size, pool, flag, tasks, schedule).history);
            var after := Replay(After(size, pool, flag, tasks, schedule + [c]).history);
            && (call.Jump? || call.Send?)
            && after == if call.Jump? then [call.bytes] + before else before + [call.bytes]
  {
    var s := After(size, pool, flag, tasks, schedule);
    ThreadsKept(size, pool, flag, tasks, schedule);
    CallsCarried(size, pool, flag, tasks, schedule, c.t);
    LinkReplays(s, flag, c);
    assert (schedule + [c])[..|schedule|] == schedule;
  }

  /** What a call was given to send. */
  function PassedTo(c: Command): Message {
    if c.Send? || c.Jump? then c.bytes else []
  }

  /** The bytes passed to the calls that linked their messages in a run, in that order. */
  ghost function Linkings(size: nat, pool: seq<Message>, flag: Flag, tasks: Tasks, schedule: seq<Command>): seq<Message>
    requires Startable(size, pool, tasks)
  {
    if schedule == [] then []
    else
      var front, c := schedule[..|schedule| - 1], schedule[|schedule| - 1];
      Linkings(size, pool, flag, tasks, front)
          + if Links(After(size, pool, flag, tasks, front), c)
            then [PassedTo(LastCall(size, pool, flag, tasks, front, c.t))] else []
  }

  lemma TakeTells(s: State, flag: Flag, c: Command)
    requires Broken(s) == {} && TakenAt(s, c) != []
    ensures Next(s, flag, c).history == s.history + [Taken(TakenAt(s, c)[0].message)]
  {
    FrontFacts(s);
  }

  lemma StepArrivals(s: State, flag: Flag, c: Command)
    requires Broken(s) == {}
    ensures Arrivals(Next(s, flag, c).history) ==
            Arrivals(s.history) + if Links(s, c) then [s.tasks[c.t].locals.buffer] else []
  {
    if c.Clear? {
      OneMoreArrival(s.history, Cleared);
    } else if Links(s, c) {
      LinkTells(s, flag, c);
      OneMoreArrival(s.history, LinkEvent(s, c));
    } else if TakenAt(s, c) != [] {
      TakeTells(s, flag, c);
      OneMoreArrival(s.history, Taken(TakenAt(s, c)[0].message));
    } else {
      NoEvent(s, flag, c);
    }
  }

  lemma NoEvent(s: State, flag: Flag, c: Command)
    requires Broken(s) == {} && !c.Clear? && !Links(s, c) && TakenAt(s, c) == []
    ensures Next(s, flag, c).history == s.history
  {
    if c.Continue? && c.t in s.tasks {
      match s.tasks[c.t].at {
        case RecvFreeing => FreeKeeps(s, c.t);
        case SendCopying => CopyInKeeps(s, c.t);
        case UrgentCopying => CopyInKeeps(s, c.t);
        case _ =>
      }
    }
  }

  /** In every run the messages that came in are, byte for byte, those passed to the calls. */
  lemma {:induction false} ArrivalsAreCalls(size: nat, pool: seq<Message>, flag: Flag, tasks: Tasks,
                                            schedule: seq<Command>)
    requires Startable(size, pool, tasks)
    ensures Arrivals(After(size, pool, flag, tasks, schedule).history) == Linkings(size, pool, flag, tasks, schedule)
  {
    if schedule == [] {
      PooledHistory(size, pool, tasks, |pool|);
    } else {
      var front, c := schedule[..|schedule| - 1], schedule[|schedule| - 1];
      var s := After(size, pool, flag, tasks, front);
      ArrivalsAreCalls(size, pool, flag, tasks, front);
      StepArrivals(s, flag, c);
      if Links(s, c) {
        ThreadsKept(size, pool, flag, tasks, front);
        CallsCarried(size, pool, flag, tasks, front, c.t);
      }
    }
  }

  // The queue

  class Queue {
    const msgSize: nat
    const maxMsgs: nat
    const flag: Flag
    var nodes: Store
    var head: int
    var tail: int
    var free: int
    var entry: nat
    var recvWait: seq<Thread>
    var sendWait: seq<Thread>
    var tasks: Tasks
    ghost var msgs: seq<nat>
    ghost var frees: seq<nat>
    ghost var owner: map<nat, Owner>
    ghost var history: seq<Event<Message>>
    ghost var promised: map<Thread, Message>

    ghost function Now(): State
      reads this
    {
      State(msgSize, maxMsgs, nodes, head, tail, free, entry, recvWait, sendWait, tasks,
            msgs, frees, owner, history, promised)
    }

    ghost predicate Valid()
      reads this
    {
      Broken(Now()) == {}
    }

    /** rt_mq_create on a pool with room for |pool| messages. */
    constructor (size: nat, pool: seq<Message>, flag: Flag, tasks: Tasks)
      requires Startable(size, pool, tasks)
      ensures Valid() && Now() == Pooled(size, pool, tasks, |pool|) && this.flag == flag
    {
      msgSize := AlignUp(size);
      maxMsgs := |pool|;
      this.flag := flag;
      this.tasks := tasks;
      head, tail, entry := NIL, NIL, 0;
      recvWait, sendWait := [], [];
      nodes, free := map[], NIL;
      msgs, frees, owner, history, promised := [], [], map[], [], map[];
      new;
      FillPool(size, pool);
      PooledIsWhole(size, pool, tasks, |pool|);
    }

    /** Threads the nodes of the pool on the free list. */
    method FillPool(size: nat, pool: seq<Message>)
      requires Now() == Pooled(size, pool, tasks, 0).(maxMsgs := |pool|)
      modifies this`nodes, this`free, this`frees, this`owner
      ensures Now() == Pooled(size, pool, tasks, |pool|)
    {
      var temp := 0;
      while temp < |pool|
        invariant temp <= |pool| && Now() == Pooled(size, pool, tasks, temp).(maxMsgs := |pool|)
        invariant Pooled(size, pool, tasks, temp).maxMsgs == temp
      {
        nodes := nodes[temp := Node(free, pool[temp])];
        free := temp;
        frees, owner := [temp] + frees, owner[temp := Spare];
        temp := temp + 1;
      }
    }

    /** One pass of the send loop: wait for a free node, or take it. */
    method Attempt(t: Thread, bytes: Message, timeout: int) returns (r: Outcome)
      requires Valid() && t in tasks && tasks[t].at in {Idle, SendWoken} && |bytes| <= msgSize
      modifies this`free, this`tasks, this`sendWait, this`frees, this`owner, this`promised
      ensures Valid() && Now() == SendPass(old(Now()), flag, t, bytes, timeout)
      ensures r == if old(free) != NIL then Proceeding else if timeout == 0 then Returned(EFULL) else Suspended
    {
      ghost var s := Now();
      if free == NIL {
        var task := tasks[t].(error := EOK);
        if timeout == 0 {
          task := task.(at := Idle);
          MoveKeeps(s, t, task);
          tasks := tasks[t := task];
          assert Now() == Moved(s, t, task);
          return Returned(EFULL);
        }
        task := task.(at := SendBlocked, timer := timeout > 0, timeout := timeout,
                      locals := task.locals.(buffer := bytes, size := |bytes|));
        SuspendSenderKeeps(s, t, task, flag);
        tasks := tasks[t := task];
        sendWait := Suspend(sendWait, tasks, t, flag);
        assert Now() == SenderSuspended(s, t, task, flag);
        return Suspended;
      }
      Claim(t, SendCopying, bytes);
      r := Proceeding;
    }

    /** Takes the first node of the free list for thread t. */
    method Claim(t: Thread, p: Point, bytes: Message)
      requires Valid() && t in tasks && tasks[t].at in {Idle, SendWoken} && |bytes| <= msgSize
      requires free != NIL && p in {SendCopying, UrgentCopying}
      modifies this`free, this`tasks, this`frees, this`owner, this`promised
      ensures Valid() && Now() == NodeTaken(old(Now()), t, p, bytes)
    {
      ghost var s := Now();
      FreeFacts(s);
      var task := tasks[t].(at := p, locals := Locals(free, bytes, |bytes|));
      ClaimTasks(s, t, task);
      var n := free;
      free, tasks := nodes[n].next, tasks[t := task];
      owner, promised, frees := owner[n := Held(t)], promised[t := []], frees[1..];
      assert Now() == Claimed(s, t, task);
    }

    /** rt_mq_send_wait, up to the first suspension or the node it will fill. */
    method SendWait(t: Thread, bytes: Message, timeout: int) returns (r: Outcome)
      requires Valid() && t in tasks && tasks[t].at == Idle && bytes != []
      modifies this`free, this`tasks, this`sendWait, this`frees, this`owner, this`promised
      ensures Valid() && Now() == SendStart(old(Now()), flag, t, bytes, timeout)
      ensures r == if |bytes| > msgSize then Returned(ERROR)
                   else if old(free) != NIL then Proceeding else if timeout == 0 then Returned(EFULL) else Suspended
    {
      if |bytes| > msgSize {
        return Returned(ERROR);
      }
      if free == NIL && timeout == 0 {
        return Returned(EFULL);
      }
      r := Attempt(t, bytes, timeout);
    }

    /** A woken sender goes round its loop again, with what is left of its timeout. */
    method SendRetry(t: Thread, elapsed: nat) returns (r: Outcome)
      requires Valid() && t in tasks && tasks[t].at == SendWoken
      modifies this`free, this`tasks, this`sendWait, this`frees, this`owner, this`promised
      ensures Valid() && t in old(tasks)
      ensures var left := Remaining(old(tasks)[t].timeout, elapsed);
              && Now() == SendPass(old(Now()), flag, t, old(tasks)[t].locals.buffer, left)
              && r == if old(free) != NIL then Proceeding else if left == 0 then Returned(EFULL) else Suspended
    {
      WokenFits(Now(), t);
      r := Attempt(t, tasks[t].locals.buffer, Remaining(tasks[t].timeout, elapsed));
    }

    /** rt_mq_urgent, up to the node it will fill. */
    method Urgent(t: Thread, bytes: Message) returns (r: Outcome)
      requires Valid() && t in tasks && tasks[t].at == Idle && bytes != []
      modifies this`free, this`tasks, this`frees, this`owner, this`promised
      ensures Valid() && Now() == UrgentStart(old(Now()), t, bytes)
      ensures r == if |bytes| > msgSize then Returned(ERROR) else if old(free) != NIL then Proceeding
              else Returned(EFULL)
    {
      if |bytes| > msgSize {
        return Returned(ERROR);
      }
      if free == NIL {
        return Returned(EFULL);
      }
      Claim(t, UrgentCopying, bytes);
      r := Proceeding;
    }

    /** The unlocked copy of a sender's bytes into its node. */
    method CopyIn(t: Thread)
      requires Valid() && t in tasks && tasks[t].at in {SendCopying, UrgentCopying}
      modifies this`nodes, this`tasks, this`promised
      ensures Valid() && t in tasks && tasks[t].locals.msg in old(nodes)
      ensures |tasks[t].locals.buffer| <= |old(nodes)[tasks[t].locals.msg].data| && t in old(tasks)
      ensures Now() == Continued(old(Now()), flag, t, 0)
      ensures tasks[t].locals.msg in nodes && tasks[t].locals.buffer <= nodes[tasks[t].locals.msg].data
    {
      ghost var s := Now();
      HeldNode(s, t);
      CopyInKeeps(s, t);
      var n, bytes, sending := tasks[t].locals.msg, tasks[t].locals.buffer, tasks[t].at == SendCopying;
      if sending {
        nodes := nodes[n := nodes[n].(next := NIL)];
      }
      nodes := nodes[n := nodes[n].(data := Overwritten(nodes[n].data, bytes))];
      tasks := tasks[t := tasks[t].(at := if sending then SendLinking else UrgentLinking)];
      promised := promised[t := []];
      assert Now() == CopiedIn(s, t);
    }

    /** Links the filled node behind the tail. */
    method LinkBack(t: Thread)
      requires t in tasks && tasks[t].at == SendLinking
      requires tasks[t].locals.msg in nodes && (tail == NIL || (tail >= 0 && tail in nodes))
      modifies this`nodes, this`head, this`tail, this`msgs, this`owner, this`history
      ensures var n := tasks[t].locals.msg;
              && tail == n && head == (if old(head) == NIL then n else old(head))
              && nodes == (if old(tail) == NIL then old(nodes)
                 else old(nodes)[old(tail) := old(nodes)[old(tail)].(next := n)])
              && msgs == old(msgs) + [n] && owner == old(owner)[n := Queued]
              && history == old(history) + [Sent(tasks[t].locals.buffer)]
    {
      var n := tasks[t].locals.msg;
      if tail != NIL {
        nodes := nodes[tail := nodes[tail].(next := n)];
      }
      tail := n;
      if head == NIL {
        head := n;
      }
      msgs, owner, history := msgs + [n], owner[n := Queued], history + [Sent(tasks[t].locals.buffer)];
    }

    /** Links the filled node in front of the head. */
    method LinkFront(t: Thread)
      requires t in tasks && tasks[t].at == UrgentLinking
      requires tasks[t].locals.msg in nodes && (tail == NIL || (tail >= 0 && tail in nodes))
      modifies this`nodes, this`head, this`tail, this`msgs, this`owner, this`history
      ensures var n := tasks[t].locals.msg;
              && head == n && tail == (if old(tail) == NIL then n else old(tail))
              && nodes == old(nodes)[n := old(nodes)[n].(next := old(head))]
              && msgs == [n] + old(msgs) && owner == old(owner)[n := Queued]
              && history == old(history) + [Urged(tasks[t].locals.buffer)]
    {
      var n := tasks[t].locals.msg;
      nodes := nodes[n := nodes[n].(next := head)];
      head := n;
      if tail == NIL {
        tail := n;
      }
      msgs, owner, history := [n] + msgs, owner[n := Queued], history + [Urged(tasks[t].locals.buffer)];
    }

    /** Counts a linked message and wakes the first suspended receiver. */
    method Announce(t: Thread) returns (r: Outcome)
      requires t in tasks && entry < ENTRY_MAX
      modifies this`entry, this`tasks, this`recvWait, this`promised
      ensures r == Returned(EOK) && entry == old(entry) + 1 && promised == old(promised)[t := []]
      ensures tasks == Roused(old(tasks)[t := old(tasks)[t].(at := Idle)], old(recvWait), RecvWoken)
      ensures recvWait == Rest(old(recvWait))
    {
      tasks := tasks[t := tasks[t].(at := Idle)];
      promised := promised[t := []];
      if entry < ENTRY_MAX {
        entry := entry + 1;
      } else {
        return Returned(EFULL);
      }
      tasks, recvWait := Roused(tasks, recvWait, RecvWoken), Rest(recvWait);
      r := Returned(EOK);
    }

    /** The filled node is linked in, and the first suspended receiver woken. */
    method Link(t: Thread) returns (r: Outcome)
      requires Valid() && t in tasks && tasks[t].at in {SendLinking, UrgentLinking}
      modifies this`nodes, this`head, this`tail, this`entry, this`tasks, this`recvWait
      modifies this`msgs, this`owner, this`history, this`promised
      ensures old(tasks)[t].locals.msg in old(nodes)
              && (old(tail) == NIL || (old(tail) >= 0 && old(tail) in old(nodes)))
      ensures Now() == Linked(old(Now()), t) && r == Returned(EOK)
      ensures Valid()
    {
      LinkFacts(Now(), t);
      LinkKeeps(Now(), t);
      if tasks[t].at == SendLinking {
        LinkBack(t);
      } else {
        LinkFront(t);
      }
      r := Announce(t);
    }

    /** Takes the first message off the list for thread t. */
    method TakeNode(t: Thread, size: nat)
      requires head >= 0 && head in nodes && msgs != [] && Replay(history) != [] && entry > 0 && t in tasks
      modifies this`head, this`tail, this`entry, this`tasks, this`msgs, this`owner, this`history, this`promised
      ensures head == nodes[old(head)].next && tail == (if old(tail) == old(head) then NIL else old(tail))
      ensures entry == old(entry) - 1 && msgs == old(msgs)[1..] && owner == old(owner)[old(head) := Held(t)]
      ensures tasks == old(tasks)[t := old(tasks)[t].(at := RecvCopying, locals := Locals(old(head), [], size))]
      ensures history == old(history) + [Taken(Replay(old(history))[0])]
      ensures promised == old(promised)[t := Replay(old(history))[0]]
    {
      var n: nat := head;
      ghost var m := Replay(history)[0];
      head := nodes[n].next;
      if tail == n {
        tail := NIL;
      }
      if entry > 0 {
        entry := entry - 1;
      }
      tasks := tasks[t := tasks[t].(at := RecvCopying, locals := Locals(n, [], size))];
      msgs, owner, history, promised := msgs[1..], owner[n := Held(t)], history + [Taken(m)], promised[t := m];
    }

    method Take(t: Thread, size: nat)
      requires Valid() && t in tasks && tasks[t].at in {Idle, RecvWoken} && entry != 0
      modifies this`head, this`tail, this`entry, this`tasks, this`msgs, this`owner, this`history, this`promised
      ensures Valid() && Now() == MessageTaken(old(Now()), t, size)
    {
      FrontFacts(Now());
      TakeKeeps(Now(), t, tasks[t].(at := RecvCopying, locals := Locals(head, [], size)));
      TakeNode(t, size);
    }

    /** One pass of the receive loop: wait for a message, or take it off the list. */
    method AttemptRecv(t: Thread, size: nat, timeout: int) returns (r: Outcome)
      requires Valid() && t in tasks && tasks[t].at in {Idle, RecvWoken}
      modifies this`head, this`tail, this`entry, this`tasks, this`recvWait
      modifies this`msgs, this`owner, this`history, this`promised
      ensures Valid() && Now() == RecvPass(old(Now()), flag, t, size, timeout)
      ensures r == if old(entry) != 0 then Proceeding else if timeout == 0 then Returned(ETIMEOUT) else Suspended
    {
      ghost var s := Now();
      if entry == 0 {
        if timeout == 0 {
          var task := tasks[t].(at := Idle, error := ETIMEOUT);
          MoveKeeps(s, t, task);
          tasks := tasks[t := task];
          assert Now() == Moved(s, t, task);
          return Returned(ETIMEOUT);
        }
        var task := tasks[t].(at := RecvBlocked, timer := timeout > 0, timeout := timeout, error := EOK,
                              locals := tasks[t].locals.(size := size));
        SuspendReceiverKeeps(s, t, task, flag);
        tasks := tasks[t := task];
        recvWait := Suspend(recvWait, tasks, t, flag);
        assert Now() == ReceiverSuspended(s, t, task, flag);
        return Suspended;
      }
      Take(t, size);
      r := Proceeding;
    }

    /** rt_mq_recv, up to the first suspension or the node it will copy. */
    method Recv(t: Thread, size: nat, timeout: int) returns (r: Outcome)
      requires Valid() && t in tasks && tasks[t].at == Idle && size > 0
      modifies this`head, this`tail, this`entry, this`tasks, this`recvWait
      modifies this`msgs, this`owner, this`history, this`promised
      ensures Valid()
      ensures Now() == if old(entry) == 0 && timeout == 0 then old(Now())
              else RecvPass(old(Now()), flag, t, size, timeout)
      ensures r == if old(entry) != 0 then Proceeding else if timeout == 0 then Returned(ETIMEOUT) else Suspended
    {
      if entry == 0 && timeout == 0 {
        return Returned(ETIMEOUT);
      }
      r := AttemptRecv(t, size, timeout);
    }

    /** A woken receiver goes round its loop again, with what is left of its timeout. */
    method RecvRetry(t: Thread, elapsed: nat) returns (r: Outcome)
      requires Valid() && t in tasks && tasks[t].at == RecvWoken
      modifies this`head, this`tail, this`entry, this`tasks, this`recvWait
      modifies this`msgs, this`owner, this`history, this`promised
      ensures Valid() && t in old(tasks)
      ensures var left := Remaining(old(tasks)[t].timeout, elapsed);
              && Now() == RecvPass(old(Now()), flag, t, old(tasks)[t].locals.size, left)
              && r == if old(entry) != 0 then Proceeding else if left == 0 then Returned(ETIMEOUT) else Suspended
    {
      r := AttemptRecv(t, tasks[t].locals.size, Remaining(tasks[t].timeout, elapsed));
    }

    /** The unlocked copy out of a receiver's node: the message it took off the queue, or as
        much of it as was asked for, followed by stale bytes if more was asked for. */
    method CopyOut(t: Thread) returns (bytes: Message)
      requires Valid() && t in tasks && tasks[t].at == RecvCopying
      modifies this`tasks
      ensures Valid() && t in tasks && tasks == old(tasks)[t := old(tasks)[t].(at := RecvFreeing)]
      ensures |bytes| == Bounded(old(tasks)[t].locals.size, msgSize)
      ensures t in promised && (promised[t] <= bytes || bytes <= promised[t])
    {
      ghost var s := Now();
      HeldNode(s, t);
      var n, size := tasks[t].locals.msg, tasks[t].locals.size;
      bytes := nodes[n].data[..if size > msgSize then msgSize else size];
      var task := tasks[t].(at := RecvFreeing);
      CopyOutKeeps(s, t, task);
      tasks := tasks[t := task];
      assert Now() == Moved(s, t, task);
    }

    /** Puts a thread's node on the free list and wakes the first suspended sender. */
    method FreeNode(t: Thread)
      requires t in tasks && tasks[t].locals.msg in nodes
      modifies this`nodes, this`free, this`tasks, this`sendWait, this`frees, this`owner, this`promised
      ensures Now() == Freed(old(Now()), t)
    {
      var n := tasks[t].locals.msg;
      nodes, free := nodes[n := nodes[n].(next := free)], n;
      frees, owner, promised := [n] + frees, owner[n := Spare], promised[t := []];
      tasks := tasks[t := tasks[t].(at := Idle)];
      tasks, sendWait := Roused(tasks, sendWait, SendWoken), Rest(sendWait);
    }

    /** The receiver's node goes back on the free list, and the first suspended sender is woken. */
    method Free(t: Thread) returns (r: Outcome)
      requires Valid() && t in tasks && tasks[t].at == RecvFreeing
      modifies this`nodes, this`free, this`tasks, this`sendWait, this`frees, this`owner, this`promised
      ensures old(tasks)[t].locals.msg in old(nodes) && Now() == Freed(old(Now()), t) && r == Returned(EOK)
      ensures Valid()
    {
      FreeKeeps(Now(), t);
      FreeNode(t);
      r := Returned(EOK);
    }

    /** A suspended thread's timer fires (rt_thread_timeout). */
    method Timeout(t: Thread)
      requires Valid() && t in tasks && tasks[t].at in {SendBlocked, RecvBlocked} && tasks[t].timer
      modifies this`tasks, this`recvWait, this`sendWait
      ensures Valid() && t in old(tasks)
      ensures tasks == old(tasks)[t := old(tasks)[t].(at := Failed, timer := false, error := ETIMEOUT)]
      ensures recvWait == Without(old(recvWait), t) && sendWait == Without(old(sendWait), t)
    {
      ghost var s := Now();
      var task := tasks[t].(at := Failed, timer := false, error := ETIMEOUT);
      TimeoutKeeps(s, t, task);
      tasks := tasks[t := task];
      recvWait, sendWait := Without(recvWait, t), Without(sendWait, t);
      assert Now() == TimedOut(s, t, task);
    }

    /** A thread resumed with an error number returns it. */
    method Fail(t: Thread) returns (r: Outcome)
      requires Valid() && t in tasks && tasks[t].at == Failed
      modifies this`tasks
      ensures Valid() && t in old(tasks) && r == Returned(old(tasks)[t].error)
      ensures tasks == old(tasks)[t := old(tasks)[t].(at := Idle)]
    {
      ghost var s := Now();
      r := Returned(tasks[t].error);
      var task := tasks[t].(at := Idle);
      MoveKeeps(s, t, task);
      tasks := tasks[t := task];
      assert Now() == Moved(s, t, task);
    }

    method FailReceivers()
      requires Valid()
      modifies this`tasks, this`recvWait
      ensures Valid() && recvWait == [] && tasks == AllFailed(old(tasks), old(recvWait))
    {
      while recvWait != []
        invariant Valid() && AllFailed(tasks, recvWait) == AllFailed(old(tasks), old(recvWait))
        decreases |recvWait|
      {
        ghost var s := Now();
        FailHeadKeeps(s, recvWait);
        var t := recvWait[0];
        tasks := tasks[t := tasks[t].(at := Failed, timer := false, error := ERROR)];
        recvWait := recvWait[1..];
        assert Now() == s.(tasks := tasks, recvWait := recvWait);
      }
    }

    method FailSenders()
      requires Valid()
      modifies this`tasks, this`sendWait
      ensures Valid() && sendWait == [] && tasks == AllFailed(old(tasks), old(sendWait))
    {
      while sendWait != []
        invariant Valid() && AllFailed(tasks, sendWait) == AllFailed(old(tasks), old(sendWait))
        decreases |sendWait|
      {
        ghost var s := Now();
        FailHeadKeeps(s, sendWait);
        var t := sendWait[0];
        tasks := tasks[t := tasks[t].(at := Failed, timer := false, error := ERROR)];
        sendWait := sendWait[1..];
        assert Now() == s.(tasks := tasks, sendWait := sendWait);
      }
    }

    /** The head node goes back on the free list; the count is left for later. */
    method DropNode()
      requires head >= 0 && head in nodes && msgs != [] && Replay(history) != []
      modifies this`nodes, this`head, this`tail, this`free, this`msgs, this`frees, this`owner, this`history
      ensures head == old(nodes)[old(head)].next && tail == (if old(tail) == old(head) then NIL else old(tail))
      ensures nodes == old(nodes)[old(head) := old(nodes)[old(head)].(next := old(free))] && free == old(head)
      ensures msgs == old(msgs)[1..] && frees == [old(head)] + old(frees) && owner == old(owner)[old(head) := Spare]
      ensures history == old(history) + [Taken(Replay(old(history))[0])]
    {
      var msg: nat := head;
      head := nodes[msg].next;
      if tail == msg {
        tail := NIL;
      }
      nodes, free := nodes[msg := nodes[msg].(next := free)], msg;
      frees, msgs, owner := [msg] + frees, msgs[1..], owner[msg := Spare];
      history := history + [Taken(Replay(history)[0])];
    }

    /** state s is this queue, but for the count. */
    method DropHead(ghost s: State)
      requires Now() == s.(entry := entry) && Broken(s) == {} && s.entry != 0 && s.recvWait == [] && s.sendWait == []
      modifies this`nodes, this`head, this`tail, this`free, this`msgs, this`frees, this`owner, this`history
      ensures s.head >= 0 && s.head in s.nodes && s.msgs != [] && Replay(s.history) != []
      ensures Now() == Dropped(s).(entry := entry)
    {
      FrontFacts(s);
      DropNode();
    }

    method DropAll()
      requires Valid() && recvWait == [] && sendWait == []
      modifies this`nodes, this`head, this`tail, this`free, this`msgs, this`frees, this`owner, this`history
      ensures Now() == Drained(old(Now())).(entry := entry)
    {
      ghost var s := Now();
      Counted(s);
      while head != NIL
        invariant Now() == s.(entry := entry) && Broken(s) == {} && s.recvWait == [] && s.sendWait == []
        invariant (s.head == NIL <==> s.entry == 0) && Drained(s) == Drained(old(Now()))
        decreases s.entry
      {
        DropHead(s);
        DropKeeps(s);
        s := Dropped(s);
        Counted(s);
      }
    }

    /** rt_mq_control with the reset command. */
    method Reset()
      requires Valid()
      modifies this`nodes, this`head, this`tail, this`free, this`entry, this`recvWait, this`sendWait, this`tasks
      modifies this`msgs, this`frees, this`owner, this`history
      ensures Valid() && Now() == AfterReset(old(Now()))
    {
      ghost var before := history;
      Told(Now());
      FailReceivers();
      FailSenders();
      DropAll();
      entry := 0;
      ClearKeeps(Now(), before);
      history := before + [Cleared];
    }

    /** One step of some thread, if the thread is there; otherwise nothing. */
    method Perform(c: Command) returns (given: seq<Delivery>)
      requires Valid()
      modifies this
      ensures Valid() && Now() == Next(old(Now()), flag, c) && Given(given, CopiedAt(old(Now()), c))
    {
      given := [];
      if c.Clear? {
        Reset();
        return;
      }
      if c.t !in tasks {
        return;
      }
      var t, at := c.t, tasks[c.t].at;
      match c {
        case Send(_, bytes, timeout) => if at.Idle? && bytes != [] { var r := SendWait(t, bytes, timeout); }
        case Jump(_, bytes) => if at.Idle? && bytes != [] { var r := Urgent(t, bytes); }
        case Receive(_, size, timeout) => if at.Idle? && size > 0 { var r := Recv(t, size, timeout); }
        case Expire(_) => if at in {SendBlocked, RecvBlocked} && tasks[t].timer { Timeout(t); }
        case Continue(_, elapsed) => given := Advance(t, elapsed);
      }
    }

    /** A thread inside a call runs its next region. */
    method Advance(t: Thread, elapsed: nat) returns (given: seq<Delivery>)
      requires Valid() && t in tasks
      modifies this
      ensures Valid() && Now() == Continued(old(Now()), flag, t, elapsed)
      ensures Given(given, CopiedAt(old(Now()), Continue(t, elapsed)))
    {
      given := [];
      match tasks[t].at {
        case SendWoken => var r := SendRetry(t, elapsed);
        case SendCopying => CopyIn(t);
        case UrgentCopying => CopyIn(t);
        case SendLinking => var r := Link(t);
        case UrgentLinking => var r := Link(t);
        case RecvWoken => var r := RecvRetry(t, elapsed);
        case RecvCopying =>
          var bytes := CopyOut(t);
          given := [Delivery(t, bytes, |bytes|)];
        case RecvFreeing => var r := Free(t);
        case Failed => var r := Fail(t);
        case Idle =>
        case SendBlocked =>
        case RecvBlocked =>
        case TakeBlocked =>
        case Granted =>
      }
    }
  }

  /** Running the steps one by one gives the state the lemmas above speak of, and hands out the
      messages copied out there. */
  method Run(size: nat, pool: seq<Message>, flag: Flag, tasks: Tasks, schedule: seq<Command>)
    returns (q: Queue, given: seq<Delivery>)
    requires Startable(size, pool, tasks)
    ensures q.Valid() && q.Now() == After(size, pool, flag, tasks, schedule)
    ensures Given(given, Copies(size, pool, flag, tasks, schedule))
  {
    q := new Queue(size, pool, flag, tasks);
    given := [];
    for i := 0 to |schedule|
      invariant q.Valid() && fresh(q) && q.flag == flag && q.Now() == After(size, pool, flag, tasks, schedule[..i])
      invariant Given(given, Copies(size, pool, flag, tasks, schedule[..i]))
    {
      assert schedule[..i + 1][..i] == schedule[..i];
      ghost var before := q.Now();
      var more := q.Perform(schedule[i]);
      GivenMore(given, Copies(size, pool, flag, tasks, schedule[..i]), more, CopiedAt(before, schedule[i]));
      given := given + more;
    }
    assert schedule[..|schedule|] == schedule;
  }
}
