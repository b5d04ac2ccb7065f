/** Mailboxes (ipc.c): a ring buffer of one-word mails. Each method of Box is one region
    the kernel runs with interrupts disabled, so every interleaving of calls is a
    sequence of method calls.

    The invariant has a few parts; `Broken` is the set of those that fail, and is empty in every
    reachable state. Where a part speaks of all threads, nodes or places, it is the set of
    offenders that is empty, so that a step is proved one of them at a time. */
module Mailbox {
  import opened Arithmetic
  import opened DequeHistory
  import opened Sequences
  import opened WaitLists

  /** The largest count and the largest size a 16-bit field holds. */
  const ENTRY_MAX: nat := 0xffff

  type Mail = nat

  /** A caller's local variables: the mail it is sending. */
  datatype Locals = Locals(value: Mail)

  type Tasks = map<Thread, Task<Locals>>

  /** A mailbox at one moment, with what happened so far. */
  datatype State = State(
    size: nat, pool: seq<Mail>, inOffset: nat, outOffset: nat, entry: nat,
    recvWait: seq<Thread>, sendWait: seq<Thread>, tasks: Tasks, history: seq<Event<Mail>>)

  // The ring

  /** Position i places behind p. */
  function Slot(size: nat, p: nat, i: nat): nat {
    if p + i >= size then p + i - size else p + i
  }

  lemma SlotIsMod(size: nat, p: nat, i: nat)
    requires p < size && i <= size
    ensures Slot(size, p, i) == (p + i) % size
  {
    DivUnique(p + i, size, if p + i >= size then 1 else 0, Slot(size, p, i));
  }

  /** Places of the ring that do not hold the mail queued there. */
  ghost function Wrong(size: nat, pool: seq<Mail>, outOffset: nat, q: seq<Mail>): set<nat> {
    set i: nat | i < |q| && !(Slot(size, outOffset, i) < |pool| && pool[Slot(size, outOffset, i)] == q[i])
  }

  lemma Right(size: nat, pool: seq<Mail>, outOffset: nat, q: seq<Mail>, i: nat)
    requires Wrong(size, pool, outOffset, q) == {} && i < |q|
    ensures Slot(size, outOffset, i) < |pool| && pool[Slot(size, outOffset, i)] == q[i]
  {
    assert i !in Wrong(size, pool, outOffset, q);
  }

  lemma PutBack(size: nat, pool: seq<Mail>, outOffset: nat, q: seq<Mail>, v: Mail)
    requires outOffset < size == |pool| && |q| < size && Wrong(size, pool, outOffset, q) == {}
    ensures Wrong(size, pool[Slot(size, outOffset, |q|) := v], outOffset, q + [v]) == {}
  {
    var pool', q' := pool[Slot(size, outOffset, |q|) := v], q + [v];
    forall i: nat | i < |q'| ensures Slot(size, outOffset, i) < |pool'| && pool'[Slot(size, outOffset, i)] == q'[i] {
      if i < |q| {
        Right(size, pool, outOffset, q, i);
      }
    }
  }

  /** Rewinding by one makes room in front. */
  lemma PutFront(size: nat, pool: seq<Mail>, outOffset: nat, q: seq<Mail>, v: Mail)
    requires outOffset < size == |pool| && |q| < size && Wrong(size, pool, outOffset, q) == {}
    ensures var p := if outOffset > 0 then outOffset - 1 else size - 1;
            Wrong(size, pool[p := v], p, [v] + q) == {}
  {
    var p := if outOffset > 0 then outOffset - 1 else size - 1;
    var pool', q' := pool[p := v], [v] + q;
    forall i: nat | i < |q'| ensures Slot(size, p, i) < |pool'| && pool'[Slot(size, p, i)] == q'[i] {
      if i > 0 {
        Right(size, pool, outOffset, q, i - 1);
      }
    }
  }

  lemma GetFront(size: nat, pool: seq<Mail>, outOffset: nat, q: seq<Mail>)
    requires outOffset < size == |pool| && 0 < |q| <= size && Wrong(size, pool, outOffset, q) == {}
    ensures pool[outOffset] == q[0] && Wrong(size, pool, Slot(size, outOffset, 1), q[1..]) == {}
  {
    Right(size, pool, outOffset, q, 0);
    var q' := q[1..];
    forall i: nat | i < |q'|
      ensures var j := Slot(size, Slot(size, outOffset, 1), i); j < |pool| && pool[j] == q'[i]
    {
      Right(size, pool, outOffset, q, i + 1);
    }
  }

  // The invariant

  /** The ring holds what the history says is queued, never more than fits. */
  ghost predicate Deque(s: State) {
    && s.entry <= s.size == |s.pool| && s.size <= ENTRY_MAX
    && (if s.size == 0 then s.inOffset == 0 && s.outOffset == 0
        else s.outOffset < s.size && s.inOffset == Slot(s.size, s.outOffset, s.entry))
    && Legal(s.history) && |Replay(s.history)| == s.entry
    && Wrong(s.size, s.pool, s.outOffset, Replay(s.history)) == {}
  }

  function Room(s: State): nat {
    if s.entry <= s.size then s.size - s.entry else 0
  }

  datatype Part = DequePart | RecvPart | SendPart

  ghost predicate Whole(s: State, part: Part) {
    match part
    case DequePart => Deque(s)
    // While a receiver is suspended, every mail has a woken receiver coming for it.
    case RecvPart => Awaits(s.recvWait, s.tasks, RecvBlocked, RecvWoken, s.entry)
    // While a sender is suspended, every free place has a woken sender coming for it.
    case SendPart => Awaits(s.sendWait, s.tasks, SendBlocked, SendWoken, Room(s))
  }

  /** The parts of the invariant that s breaks: none, in any reachable state. */
  ghost function Broken(s: State): set<Part> {
    set part: Part | !Whole(s, part)
  }

  lemma Intact(s: State)
    requires Broken(s) == {}
    ensures Deque(s) && Awaits(s.recvWait, s.tasks, RecvBlocked, RecvWoken, s.entry)
    ensures Awaits(s.sendWait, s.tasks, SendBlocked, SendWoken, Room(s))
  {
    forall part: Part ensures Whole(s, part) {
      assert part !in Broken(s);
    }
    assert Whole(s, DequePart) && Whole(s, RecvPart) && Whole(s, SendPart);
  }

  lemma AllIntact(s: State)
    requires Deque(s) && Awaits(s.recvWait, s.tasks, RecvBlocked, RecvWoken, s.entry)
    requires Awaits(s.sendWait, s.tasks, SendBlocked, SendWoken, Room(s))
    ensures Broken(s) == {}
  {
  }

  // The steps

  /** A caller moves on without touching the ring: its call fails, or returns. */
  ghost function Moved(s: State, t: Thread, task: Task<Locals>): State {
    s.(tasks := s.tasks[t := task])
  }

  lemma MoveKeeps(s: State, t: Thread, task: Task<Locals>)
    requires Broken(s) == {} && t in s.tasks && s.tasks[t].at in {Idle, SendWoken, RecvWoken, Failed}
    requires task.at in {Idle, Failed}
    requires s.tasks[t].at == SendWoken ==> s.entry == s.size
    requires s.tasks[t].at == RecvWoken ==> s.entry == 0
    ensures Broken(Moved(s, t, task)) == {}
  {
    Intact(s);
    AwaitsStep(s.recvWait, s.tasks, RecvBlocked, RecvWoken, s.entry, t, task, s.entry);
    AwaitsStep(s.sendWait, s.tasks, SendBlocked, SendWoken, Room(s), t, task, Room(s));
    AllIntact(Moved(s, t, task));
  }

  ghost function SenderSuspended(s: State, t: Thread, task: Task<Locals>, flag: Flag): State {
    var tasks := s.tasks[t := task];
    s.(tasks := tasks, sendWait := Enqueued(s.sendWait, tasks, t, flag))
  }

  lemma SuspendSenderKeeps(s: State, t: Thread, task: Task<Locals>, flag: Flag)
    requires Broken(s) == {} && t in s.tasks && s.tasks[t].at in {Idle, SendWoken} && task.at == SendBlocked
    requires s.entry == s.size
    ensures Elements(s.sendWait) <= s.tasks.Keys && Broken(SenderSuspended(s, t, task, flag)) == {}
  {
    Intact(s);
    AwaitsStep(s.recvWait, s.tasks, RecvBlocked, RecvWoken, s.entry, t, task, s.entry);
    AwaitsJoin(s.sendWait, s.tasks, SendBlocked, SendWoken, t, task, flag);
    AllIntact(SenderSuspended(s, t, task, flag));
  }

  ghost function ReceiverSuspended(s: State, t: Thread, task: Task<Locals>, flag: Flag): State {
    var tasks := s.tasks[t := task];
    s.(tasks := tasks, recvWait := Enqueued(s.recvWait, tasks, t, flag))
  }

  lemma SuspendReceiverKeeps(s: State, t: Thread, task: Task<Locals>, flag: Flag)
    requires Broken(s) == {} && t in s.tasks && s.tasks[t].at in {Idle, RecvWoken} && task.at == RecvBlocked
    requires s.entry == 0
    ensures Elements(s.recvWait) <= s.tasks.Keys && Broken(ReceiverSuspended(s, t, task, flag)) == {}
  {
    Intact(s);
    AwaitsStep(s.sendWait, s.tasks, SendBlocked, SendWoken, Room(s), t, task, Room(s));
    AwaitsJoin(s.recvWait, s.tasks, RecvBlocked, RecvWoken, t, task, flag);
    AllIntact(ReceiverSuspended(s, t, task, flag));
  }

  /** A suspended thread resumed with an error: its timer fired, or the mailbox was reset. */
  ghost function Expelled(s: State, t: Thread, task: Task<Locals>): State {
    s.(tasks := s.tasks[t := task], recvWait := Without(s.recvWait, t), sendWait := Without(s.sendWait, t))
  }

  lemma ExpelKeeps(s: State, t: Thread, task: Task<Locals>)
    requires Broken(s) == {} && t in s.tasks && s.tasks[t].at in {SendBlocked, RecvBlocked} && task.at == Failed
    ensures Broken(Expelled(s, t, task)) == {}
    ensures s.tasks[t].at == SendBlocked ==> Without(s.recvWait, t) == s.recvWait
    ensures s.tasks[t].at == RecvBlocked ==> Without(s.sendWait, t) == s.sendWait
  {
    Intact(s);
    if s.tasks[t].at == SendBlocked {
      AwaitsLeave(s.sendWait, s.tasks, SendBlocked, SendWoken, Room(s), t, task);
      AwaitsStep(s.recvWait, s.tasks, RecvBlocked, RecvWoken, s.entry, t, task, s.entry);
      assert t !in At(s.tasks, RecvBlocked);
      NotWithout(s.recvWait, t);
    } else {
      AwaitsLeave(s.recvWait, s.tasks, RecvBlocked, RecvWoken, s.entry, t, task);
      AwaitsStep(s.sendWait, s.tasks, SendBlocked, SendWoken, Room(s), t, task, Room(s));
      assert t !in At(s.tasks, SendBlocked);
      NotWithout(s.sendWait, t);
    }
    AllIntact(Expelled(s, t, task));
  }

  /** The head of a waiting list is a thread blocked there. */
  lemma HeadBlocked(s: State)
    requires Broken(s) == {}
    ensures s.recvWait != [] ==> s.recvWait[0] in s.tasks && s.tasks[s.recvWait[0]].at == RecvBlocked
    ensures s.sendWait != [] ==> s.sendWait[0] in s.tasks && s.tasks[s.sendWait[0]].at == SendBlocked
  {
    Intact(s);
    if s.recvWait != [] {
      assert s.recvWait[0] in Elements(s.recvWait);
    }
    if s.sendWait != [] {
      assert s.sendWait[0] in Elements(s.sendWait);
    }
  }

  /** A mail put in behind the last one, and the first suspended receiver woken. */
  ghost function Posted(s: State, t: Thread, task: Task<Locals>, v: Mail): State
    requires s.inOffset < |s.pool|
  {
    s.(pool := s.pool[s.inOffset := v], inOffset := Slot(s.size, s.inOffset, 1), entry := s.entry + 1,
       history := s.history + [Sent(v)], tasks := Roused(s.tasks[t := task], s.recvWait, RecvWoken),
       recvWait := Rest(s.recvWait))
  }

  /** A mail put in front of the first one. */
  ghost function Jumped(s: State, t: Thread, task: Task<Locals>, v: Mail): State
    requires s.outOffset < |s.pool| == s.size
  {
    var p := if s.outOffset > 0 then s.outOffset - 1 else s.size - 1;
    s.(pool := s.pool[p := v], outOffset := p, entry := s.entry + 1,
       history := s.history + [Urged(v)], tasks := Roused(s.tasks[t := task], s.recvWait, RecvWoken),
       recvWait := Rest(s.recvWait))
  }

  /** The first mail taken out, and the first suspended sender woken. */
  ghost function Collected(s: State, t: Thread, task: Task<Locals>): State
    requires Replay(s.history) != [] && s.entry > 0
  {
    s.(outOffset := Slot(s.size, s.outOffset, 1), entry := s.entry - 1,
       history := s.history + [Taken(Replay(s.history)[0])],
       tasks := Roused(s.tasks[t := task], s.sendWait, SendWoken), sendWait := Rest(s.sendWait))
  }

  lemma Offsets(s: State)
    requires Broken(s) == {}
    ensures |s.pool| == s.size && s.entry <= s.size <= ENTRY_MAX && s.entry == |Replay(s.history)|
    ensures s.entry != s.size ==> s.inOffset < s.size && s.outOffset < s.size
    ensures s.entry != 0 ==>
            s.outOffset < s.size && Replay(s.history) != [] && s.pool[s.outOffset] == Replay(s.history)[0]
  {
    Intact(s);
    if s.entry != 0 {
      GetFront(s.size, s.pool, s.outOffset, Replay(s.history));
    }
  }

  /** One mail more: a receiver is woken for it, and a sender that was woken has used its place. */
  lemma ArrivalAwaits(s: State, t: Thread, task: Task<Locals>)
    requires Broken(s) == {} && s.entry != s.size
    requires t in s.tasks && s.tasks[t].at in {Idle, SendWoken} && task.at == Idle
    ensures var tasks := Roused(s.tasks[t := task], s.recvWait, RecvWoken);
            && Awaits(Rest(s.recvWait), tasks, RecvBlocked, RecvWoken, s.entry + 1)
            && Room(s) > 0 && Awaits(s.sendWait, tasks, SendBlocked, SendWoken, Room(s) - 1)
  {
    Intact(s);
    var tasks := s.tasks[t := task];
    AwaitsStep(s.recvWait, s.tasks, RecvBlocked, RecvWoken, s.entry, t, task, s.entry);
    AwaitsStep(s.sendWait, s.tasks, SendBlocked, SendWoken, Room(s), t, task, Room(s) - 1);
    AwaitsArrival(s.recvWait, tasks, RecvBlocked, RecvWoken, s.entry);
    AwaitsOther(s.sendWait, tasks, SendBlocked, SendWoken, Room(s) - 1, s.recvWait, RecvBlocked, RecvWoken, s.entry);
  }

  lemma PostDeque(s: State, t: Thread, task: Task<Locals>, v: Mail)
    requires Deque(s) && s.entry != s.size
    ensures s.inOffset < |s.pool| && Deque(Posted(s, t, task, v))
  {
    PutBack(s.size, s.pool, s.outOffset, Replay(s.history), v);
    OneMore(s.history, Sent(v));
  }

  lemma JumpDeque(s: State, t: Thread, task: Task<Locals>, v: Mail)
    requires Deque(s) && s.entry != s.size
    ensures s.outOffset < |s.pool| == s.size && Deque(Jumped(s, t, task, v))
  {
    PutFront(s.size, s.pool, s.outOffset, Replay(s.history), v);
    OneMore(s.history, Urged(v));
  }

  lemma CollectDeque(s: State, t: Thread, task: Task<Locals>)
    requires Deque(s) && s.entry != 0
    ensures Replay(s.history) != [] && Deque(Collected(s, t, task))
  {
    GetFront(s.size, s.pool, s.outOffset, Replay(s.history));
    OneMore(s.history, Taken(Replay(s.history)[0]));
  }

  lemma PostKeeps(s: State, t: Thread, task: Task<Locals>, v: Mail)
    requires Broken(s) == {} && s.entry != s.size
    requires t in s.tasks && s.tasks[t].at in {Idle, SendWoken} && task.at == Idle
    ensures s.inOffset < |s.pool| && Broken(Posted(s, t, task, v)) == {}
  {
    Intact(s);
    PostDeque(s, t, task, v);
    ArrivalAwaits(s, t, task);
    AllIntact(Posted(s, t, task, v));
  }

  lemma JumpKeeps(s: State, t: Thread, task: Task<Locals>, v: Mail)
    requires Broken(s) == {} && s.entry != s.size
    requires t in s.tasks && s.tasks[t].at == Idle && task.at == Idle
    ensures s.outOffset < |s.pool| == s.size && Broken(Jumped(s, t, task, v)) == {}
  {
    Intact(s);
    JumpDeque(s, t, task, v);
    ArrivalAwaits(s, t, task);
    AllIntact(Jumped(s, t, task, v));
  }

  lemma CollectKeeps(s: State, t: Thread, task: Task<Locals>)
    requires Broken(s) == {} && s.entry != 0
    requires t in s.tasks && s.tasks[t].at in {Idle, RecvWoken} && task.at == Idle
    ensures Replay(s.history) != [] && Broken(Collected(s, t, task)) == {}
  {
    Intact(s);
    CollectDeque(s, t, task);
    var tasks := s.tasks[t := task];
    AwaitsStep(s.recvWait, s.tasks, RecvBlocked, RecvWoken, s.entry, t, task, s.entry - 1);
    AwaitsStep(s.sendWait, s.tasks, SendBlocked, SendWoken, Room(s), t, task, Room(s));
    AwaitsArrival(s.sendWait, tasks, SendBlocked, SendWoken, Room(s));
    AwaitsOther(s.recvWait, tasks, RecvBlocked, RecvWoken, s.entry - 1, s.sendWait, SendBlocked, SendWoken, Room(s));
    AllIntact(Collected(s, t, task));
  }

  /** The ring emptied by a reset, with nobody waiting. */
  lemma ClearKeeps(s: State)
    requires Broken(s) == {} && s.recvWait == [] && s.sendWait == []
    ensures Broken(s.(entry := 0, inOffset := 0, outOffset := 0, history := s.history + [Cleared])) == {}
  {
    Intact(s);
    OneMore(s.history, Cleared);
    AllIntact(s.(entry := 0, inOffset := 0, outOffset := 0, history := s.history + [Cleared]));
  }

  // What holds in every reachable state

  /** Every thread that was woken has run. */
  ghost predicate Settled(s: State) {
    At(s.tasks, SendWoken) == {} && At(s.tasks, RecvWoken) == {}
  }

  /** No lost wakeups: once every woken thread has run, waiting receivers mean an empty
      mailbox and waiting senders a full one. */
  lemma Quiescent(s: State)
    requires Broken(s) == {} && Settled(s)
    ensures s.recvWait != [] ==> s.entry == 0
    ensures s.sendWait != [] ==> s.entry == s.size
  {
    Intact(s);
    assert At(s.tasks, SendWoken) == {} && At(s.tasks, RecvWoken) == {};
  }

  /** The ring is a bounded deque: the write offset is the read offset plus the count, modulo
      the size, and mail i stands i places behind the read offset. */
  lemma IsDeque(s: State)
    requires Broken(s) == {} && s.size > 0
    ensures s.entry == |Replay(s.history)| <= s.size && s.outOffset < s.size == |s.pool|
    ensures s.inOffset == (s.outOffset + s.entry) % s.size
    ensures forall i :: 0 <= i < s.entry ==> s.pool[(s.outOffset + i) % s.size] == Replay(s.history)[i]
  {
    Intact(s);
    SlotIsMod(s.size, s.outOffset, s.entry);
    forall i | 0 <= i < s.entry ensures s.pool[(s.outOffset + i) % s.size] == Replay(s.history)[i] {
      Right(s.size, s.pool, s.outOffset, Replay(s.history), i);
      SlotIsMod(s.size, s.outOffset, i);
    }
  }

  /** Every mail sent was received once, thrown away by a reset, or is still queued. */
  lemma EachOnce(s: State)
    requires Broken(s) == {}
    ensures Legal(s.history)
    ensures multiset(Arrivals(s.history)) ==
            multiset(Receipts(s.history)) + multiset(Discards(s.history)) + multiset(Replay(s.history))
  {
    Intact(s);
    Conserved(s.history);
  }

  // Runs

  /** What may happen next: a thread starts a call, continues one, or times out; or a reset. */
  datatype Command =
    | Send(t: Thread, value: Mail, timeout: int)
    | Jump(t: Thread, value: Mail)
    | Receive(t: Thread, timeout: int)
    | Continue(t: Thread, elapsed: nat)
    | Expire(t: Thread)
    | Clear

  /** One pass of the send loop: wait for a free place, or use it. */
  ghost function SendPass(s: State, flag: Flag, t: Thread, value: Mail, timeout: int): State
    requires Broken(s) == {} && t in s.tasks
  {
    var task := s.tasks[t];
    Offsets(s);
    if s.entry != s.size then Posted(s, t, task.(at := Idle), value)
    else if timeout == 0 then Moved(s, t, task.(at := Idle, error := EOK))
    else SenderSuspended(s, t, Task(SendBlocked, task.priority, timeout > 0, EOK, timeout, Locals(value)), flag)
  }

  lemma SendPassKeeps(s: State, flag: Flag, t: Thread, value: Mail, timeout: int)
    requires Broken(s) == {} && t in s.tasks && s.tasks[t].at in {Idle, SendWoken}
    ensures Broken(SendPass(s, flag, t, value, timeout)) == {}
  {
    var task := s.tasks[t];
    if s.entry != s.size {
      PostKeeps(s, t, task.(at := Idle), value);
    } else if timeout == 0 {
      MoveKeeps(s, t, task.(at := Idle, error := EOK));
    } else {
      SuspendSenderKeeps(s, t, Task(SendBlocked, task.priority, timeout > 0, EOK, timeout, Locals(value)), flag);
    }
  }

  /** One pass of the receive loop: wait for a mail, or take it. */
  ghost function RecvPass(s: State, flag: Flag, t: Thread, timeout: int): State
    requires Broken(s) == {} && t in s.tasks
  {
    var task := s.tasks[t];
    Offsets(s);
    if s.entry != 0 then Collected(s, t, task.(at := Idle))
    else if timeout == 0 then Moved(s, t, task.(at := Idle, error := ETIMEOUT))
    else ReceiverSuspended(s, t, Task(RecvBlocked, task.priority, timeout > 0, EOK, timeout, Locals(0)), flag)
  }

  lemma RecvPassKeeps(s: State, flag: Flag, t: Thread, timeout: int)
    requires Broken(s) == {} && t in s.tasks && s.tasks[t].at in {Idle, RecvWoken}
    ensures Broken(RecvPass(s, flag, t, timeout)) == {}
  {
    var task := s.tasks[t];
    if s.entry != 0 {
      CollectKeeps(s, t, task.(at := Idle));
    } else if timeout == 0 {
      MoveKeeps(s, t, task.(at := Idle, error := ETIMEOUT));
    } else {
      SuspendReceiverKeeps(s, t, Task(RecvBlocked, task.priority, timeout > 0, EOK, timeout, Locals(0)), flag);
    }
  }

  /** rt_mb_urgent. */
  ghost function UrgentPass(s: State, t: Thread, value: Mail): State
    requires Broken(s) == {} && t in s.tasks
  {
    Offsets(s);
    if s.entry != s.size then Jumped(s, t, s.tasks[t].(at := Idle), value) else s
  }

  /** rt_mb_control with the reset command. */
  ghost function AfterReset(s: State): State {
    s.(entry := 0, inOffset := 0, outOffset := 0, recvWait := [], sendWait := [],
       tasks := AllFailed(AllFailed(s.tasks, s.recvWait), s.sendWait), history := s.history + [Cleared])
  }

  lemma {:induction false} FailReceiversKeeps(s: State)
    requires Broken(s) == {}
    ensures Broken(s.(recvWait := [], tasks := AllFailed(s.tasks, s.recvWait))) == {}
    decreases |s.recvWait|
  {
    if s.recvWait == [] {
      assert s.(recvWait := [], tasks := AllFailed(s.tasks, s.recvWait)) == s;
    } else {
      HeadBlocked(s);
      var t := s.recvWait[0];
      var task := s.tasks[t].(at := Failed, timer := false, error := ERROR);
      ExpelKeeps(s, t, task);
      FailReceiversKeeps(Expelled(s, t, task));
    }
  }

  lemma {:induction false} FailSendersKeeps(s: State)
    requires Broken(s) == {}
    ensures Broken(s.(sendWait := [], tasks := AllFailed(s.tasks, s.sendWait))) == {}
    decreases |s.sendWait|
  {
    if s.sendWait == [] {
      assert s.(sendWait := [], tasks := AllFailed(s.tasks, s.sendWait)) == s;
    } else {
      HeadBlocked(s);
      var t := s.sendWait[0];
      var task := s.tasks[t].(at := Failed, timer := false, error := ERROR);
      ExpelKeeps(s, t, task);
      FailSendersKeeps(Expelled(s, t, task));
    }
  }

  lemma ResetKeeps(s: State)
    requires Broken(s) == {}
    ensures Broken(AfterReset(s)) == {}
  {
    FailReceiversKeeps(s);
    var s1 := s.(recvWait := [], tasks := AllFailed(s.tasks, s.recvWait));
    FailSendersKeeps(s1);
    ClearKeeps(s1.(sendWait := [], tasks := AllFailed(s1.tasks, s1.sendWait)));
  }

  /** A thread inside a call continues it. */
  ghost function Continued(s: State, flag: Flag, t: Thread, elapsed: nat): State
    requires Broken(s) == {} && t in s.tasks
  {
    var task := s.tasks[t];
    match task.at
    case SendWoken => SendPass(s, flag, t, task.locals.value, Remaining(task.timeout, elapsed))
    case RecvWoken => RecvPass(s, flag, t, Remaining(task.timeout, elapsed))
    case Failed => Moved(s, t, task.(at := Idle))
    case _ => s
  }

  /** One step of some thread, if the thread is there for it; otherwise nothing. */
  ghost function Next(s: State, flag: Flag, c: Command): State
    requires Broken(s) == {}
  {
    if c.Clear? then AfterReset(s)
    else if c.t !in s.tasks then s
    else
      var task := s.tasks[c.t];
      match c
      case Send(t, value, timeout) =>
        if task.at.Idle? && !(s.entry == s.size && timeout == 0) then SendPass(s, flag, t, value, timeout) else s
      case Jump(t, value) => if task.at.Idle? then UrgentPass(s, t, value) else s
      case Receive(t, timeout) =>
        if task.at.Idle? && !(s.entry == 0 && timeout == 0) then RecvPass(s, flag, t, timeout) else s
      case Expire(t) =>
        if task.at in {SendBlocked, RecvBlocked} && task.timer
        then Expelled(s, t, task.(at := Failed, timer := false, error := ETIMEOUT)) else s
      case Continue(t, elapsed) => Continued(s, flag, t, elapsed)
  }

  lemma NextKeeps(s: State, flag: Flag, c: Command)
    requires Broken(s) == {}
    ensures Broken(Next(s, flag, c)) == {}
  {
    if c.Clear? {
      ResetKeeps(s);
    } else if c.t in s.tasks {
      var task := s.tasks[c.t];
      match c {
        case Send(t, value, timeout) => if task.at.Idle? { SendPassKeeps(s, flag, t, value, timeout); }
        case Jump(t, value) => if task.at.Idle? && s.entry != s.size { JumpKeeps(s, t, task.(at := Idle), value); }
        case Receive(t, timeout) => if task.at.Idle? { RecvPassKeeps(s, flag, t, timeout); }
        case Expire(t) =>
          if task.at in {SendBlocked, RecvBlocked} {
            ExpelKeeps(s, t, task.(at := Failed, timer := false, error := ETIMEOUT));
          }
        case Continue(t, elapsed) =>
          if task.at.SendWoken? {
            SendPassKeeps(s, flag, t, task.locals.value, Remaining(task.timeout, elapsed));
          } else if task.at.RecvWoken? {
            RecvPassKeeps(s, flag, t, Remaining(task.timeout, elapsed));
          } else if task.at.Failed? {
            MoveKeeps(s, t, task.(at := Idle));
          }
      }
    }
  }

  /** The mail a step hands to a receiver, if any. */
  ghost function Handed(s: State, c: Command): seq<Mail>
    requires Broken(s) == {}
  {
    if && !c.Clear? && c.t in s.tasks && s.entry != 0
       && ((c.Receive? && s.tasks[c.t].at.Idle?) || (c.Continue? && s.tasks[c.t].at.RecvWoken?))
    then Offsets(s); [Replay(s.history)[0]] else []
  }

  lemma SendPassReceipts(s: State, flag: Flag, t: Thread, value: Mail, timeout: int)
    requires Broken(s) == {} && t in s.tasks
    ensures Receipts(SendPass(s, flag, t, value, timeout).history) == Receipts(s.history)
  {
    OneMoreReceipt(s.history, Sent(value));
  }

  lemma RecvPassReceipts(s: State, flag: Flag, t: Thread, timeout: int)
    requires Broken(s) == {} && t in s.tasks
    ensures s.entry != 0 ==> Replay(s.history) != []
    ensures Receipts(RecvPass(s, flag, t, timeout).history) ==
            Receipts(s.history) + if s.entry != 0 then [Replay(s.history)[0]] else []
  {
    Offsets(s);
    if s.entry != 0 {
      OneMoreReceipt(s.history, Taken(Replay(s.history)[0]));
    }
  }

  lemma ContinueReceipts(s: State, flag: Flag, t: Thread, elapsed: nat)
    requires Broken(s) == {} && t in s.tasks
    ensures s.entry != 0 ==> Replay(s.history) != []
    ensures Receipts(Continued(s, flag, t, elapsed).history) ==
            Receipts(s.history) + if s.tasks[t].at.RecvWoken? && s.entry != 0 then [Replay(s.history)[0]] else []
  {
    var task := s.tasks[t];
    Offsets(s);
    if task.at.SendWoken? {
      SendPassReceipts(s, flag, t, task.locals.value, Remaining(task.timeout, elapsed));
    } else if task.at.RecvWoken? {
      RecvPassReceipts(s, flag, t, Remaining(task.timeout, elapsed));
    } else {
      assert Continued(s, flag, t, elapsed).history == s.history;
    }
  }

  /** What is handed out is what the history says is received. */
  lemma HandedIsReceived(s: State, flag: Flag, c: Command)
    requires Broken(s) == {}
    ensures Receipts(Next(s, flag, c).history) == Receipts(s.history) + Handed(s, c)
  {
    if c.Clear? {
      OneMoreReceipt(s.history, Cleared);
    } else if c.t in s.tasks {
      if c.Continue? {
        ContinueReceipts(s, flag, c.t, c.elapsed);
      } else if c.Receive? && s.tasks[c.t].at.Idle? {
        RecvPassReceipts(s, flag, c.t, c.timeout);
      } else if c.Send? && s.tasks[c.t].at.Idle? {
        SendPassReceipts(s, flag, c.t, c.value, c.timeout);
      } else if c.Jump? {
        OneMoreReceipt(s.history, Urged(c.value));
      } else {
        assert Next(s, flag, c).history == s.history;
      }
    }
  }

  /** A new mailbox (rt_mb_init) on a buffer, among threads that are doing nothing with it. */
  ghost function Fresh(pool: seq<Mail>, tasks: Tasks): State {
    State(|pool|, pool, 0, 0, 0, [], [], tasks, [])
  }

  ghost predicate Startable(pool: seq<Mail>, tasks: Tasks) {
    |pool| <= ENTRY_MAX && forall t :: t in tasks ==> tasks[t].at == Idle
  }

  lemma FreshIsWhole(pool: seq<Mail>, tasks: Tasks)
    requires Startable(pool, tasks)
    ensures Broken(Fresh(pool, tasks)) == {}
  {
    assert At(tasks, RecvBlocked) == {} && At(tasks, SendBlocked) == {};
    AllIntact(Fresh(pool, tasks));
  }

  /** The state a run of steps leads to; the invariant holds there. */
  ghost function After(pool: seq<Mail>, flag: Flag, tasks: Tasks, schedule: seq<Command>): (s: State)
    requires Startable(pool, tasks)
    ensures Broken(s) == {}
  {
    if schedule == [] then FreshIsWhole(pool, tasks); Fresh(pool, tasks)
    else
      var before := After(pool, flag, tasks, schedule[..|schedule| - 1]);
      NextKeeps(before, flag, schedule[|schedule| - 1]);
      Next(before, flag, schedule[|schedule| - 1])
  }

  /** In every run the ring is a deque of what was sent. */
  lemma RunIsDeque(pool: seq<Mail>, flag: Flag, tasks: Tasks, schedule: seq<Command>)
    requires Startable(pool, tasks)
    ensures var s := After(pool, flag, tasks, schedule);
            s.size > 0 ==> s.inOffset == (s.outOffset + s.entry) % s.size && s.entry == |Replay(s.history)| <= s.size
  {
    var s := After(pool, flag, tasks, schedule);
    if s.size > 0 {
      IsDeque(s);
    }
  }

  /** In every run nothing sent is received twice or vanishes. */
  lemma RunConserves(pool: seq<Mail>, flag: Flag, tasks: Tasks, schedule: seq<Command>)
    requires Startable(pool, tasks)
    ensures var h := After(pool, flag, tasks, schedule).history;
            multiset(Arrivals(h)) == multiset(Receipts(h)) + multiset(Discards(h)) + multiset(Replay(h))
  {
    EachOnce(After(pool, flag, tasks, schedule));
  }

  /** In every run no wakeup is lost: while a receiver is suspended, each queued mail has a receiver
      that was woken and has not run yet, and while a sender is suspended, each free place has such a
      sender. Once all woken threads have run, waiting receivers mean an empty mailbox and waiting
      senders a full one. */
  lemma NoLostWakeup(pool: seq<Mail>, flag: Flag, tasks: Tasks, schedule: seq<Command>)
    requires Startable(pool, tasks)
    ensures var s := After(pool, flag, tasks, schedule);
            && (s.recvWait != [] ==> s.entry <= |At(s.tasks, RecvWoken)|)
            && (s.sendWait != [] ==> s.size - s.entry <= |At(s.tasks, SendWoken)|)
    ensures var s := After(pool, flag, tasks, schedule);
            Settled(s) ==> (s.recvWait != [] ==> s.entry == 0) && (s.sendWait != [] ==> s.entry == s.size)
  {
    var s := After(pool, flag, tasks, schedule);
    Intact(s);
    if Settled(s) {
      Quiescent(s);
    }
  }

  /** A thread that sends, or goes on sending, when there is room. */
  ghost predicate Stores(s: State, c: Command) {
    && !c.Clear? && c.t in s.tasks && s.entry != s.size
    && (((c.Send? || c.Jump?) && s.tasks[c.t].at == Idle) || (c.Continue? && s.tasks[c.t].at == SendWoken))
  }

  ghost function MailOf(s: State, c: Command): Mail
    requires Stores(s, c)
  {
    if c.Continue? then s.tasks[c.t].locals.value else c.value
  }

  lemma StepStores(s: State, flag: Flag, c: Command)
    requires Broken(s) == {} && Stores(s, c)
    ensures Next(s, flag, c).history == s.history + [if c.Jump? then Urged(MailOf(s, c)) else Sent(MailOf(s, c))]
  {
  }

  lemma StepTakes(s: State, flag: Flag, c: Command)
    requires Broken(s) == {} && Handed(s, c) != []
    ensures Next(s, flag, c).history == s.history + [Taken(Handed(s, c)[0])]
  {
    Offsets(s);
  }

  lemma NoEvent(s: State, flag: Flag, c: Command)
    requires Broken(s) == {} && !c.Clear? && !Stores(s, c) && Handed(s, c) == []
    ensures Next(s, flag, c).history == s.history
  {
  }

  ghost predicate Plain(c: Command) {
    !c.Jump? && !c.Clear?
  }

  /** One step without urgent send or reset adds at most one send or one receive. */
  lemma PlainStep(s: State, flag: Flag, c: Command)
    requires Broken(s) == {} && Plain(c) && Ordinary(s.history)
    ensures Ordinary(Next(s, flag, c).history)
  {
    if Stores(s, c) {
      StepStores(s, flag, c);
      OneMoreOrdinary(s.history, Sent(MailOf(s, c)));
    } else if Handed(s, c) != [] {
      StepTakes(s, flag, c);
      OneMoreOrdinary(s.history, Taken(Handed(s, c)[0]));
    } else {
      NoEvent(s, flag, c);
    }
  }

  lemma {:induction false} PlainHistory(pool: seq<Mail>, flag: Flag, tasks: Tasks, schedule: seq<Command>)
    requires Startable(pool, tasks) && forall i :: 0 <= i < |schedule| ==> Plain(schedule[i])
    ensures Ordinary(After(pool, flag, tasks, schedule).history)
  {
    if schedule != [] {
      var before := schedule[..|schedule| - 1];
      PlainHistory(pool, flag, tasks, before);
      PlainStep(After(pool, flag, tasks, before), flag, schedule[|schedule| - 1]);
    }
  }

  /** In every run without urgent sends and resets, mails are received in the order they were
      stored, whoever sends and receives. */
  lemma ReceivedInOrder(pool: seq<Mail>, flag: Flag, tasks: Tasks, schedule: seq<Command>)
    requires Startable(pool, tasks) && forall i :: 0 <= i < |schedule| ==> Plain(schedule[i])
    ensures var h := After(pool, flag, tasks, schedule).history; Arrivals(h) == Receipts(h) + Replay(h)
  {
    var s := After(pool, flag, tasks, schedule);
    PlainHistory(pool, flag, tasks, schedule);
    EachOnce(s);
    FifoOrder(s.history);
  }

  // What a call does first

  /** The thread in front of the list, if any, is ready at point p with its timer stopped, thread t
      has returned, and nobody else is concerned. */
  ghost predicate WokenAt(s: State, s': State, t: Thread, list: seq<Thread>, p: Point) {
    && s'.tasks.Keys == s.tasks.Keys
    && forall x :: x in s.tasks ==>
         s'.tasks[x] == if x == t then s.tasks[x].(at := Idle)
                        else if list != [] && x == list[0] then s.tasks[x].(at := p, timer := false) else s.tasks[x]
  }

  lemma WokenOne(s: State, t: Thread, list: seq<Thread>, p: Point, s': State)
    requires t in s.tasks && t !in list && s'.tasks == Roused(s.tasks[t := s.tasks[t].(at := Idle)], list, p)
    ensures WokenAt(s, s', t, list, p)
  {
    var tasks := s.tasks[t := s.tasks[t].(at := Idle)];
    forall x | x in s.tasks
      ensures x in s'.tasks && s'.tasks[x] == if x == t then s.tasks[x].(at := Idle)
              else if list != [] && x == list[0] then s.tasks[x].(at := p, timer := false) else s.tasks[x]
    {
      RousedIs(tasks, list, p, x);
    }
  }

  lemma Unlisted(s: State, t: Thread)
    requires Broken(s) == {} && t in s.tasks && s.tasks[t].at in {Idle, SendWoken, RecvWoken}
    ensures t !in s.recvWait && t !in s.sendWait
  {
    Intact(s);
    assert t !in At(s.tasks, RecvBlocked) && t !in At(s.tasks, SendBlocked);
    assert t !in Elements(s.recvWait) && t !in Elements(s.sendWait);
  }

  /** A pass of the send loop stores the mail behind all others and wakes the first receiver, comes
      back with an error, or waits with the timer armed if the timeout is not for ever. */
  lemma SendPassIs(s: State, flag: Flag, t: Thread, value: Mail, timeout: int)
    requires Broken(s) == {} && t in s.tasks && s.tasks[t].at in {Idle, SendWoken}
    ensures var s' := SendPass(s, flag, t, value, timeout);
            if s.entry != s.size then
              && Replay(s'.history) == Replay(s.history) + [value] && s'.entry == s.entry + 1
              && WokenAt(s, s', t, s.recvWait, RecvWoken) && s'.recvWait == Rest(s.recvWait)
              && s'.sendWait == s.sendWait
            else
              && s'.history == s.history && s'.entry == s.entry && s'.recvWait == s.recvWait
              && t in s'.tasks && s'.tasks == s.tasks[t := s'.tasks[t]]
              && if timeout == 0 then s'.tasks[t].at == Idle && s'.sendWait == s.sendWait
                 else
                   && s'.tasks[t] == Task(SendBlocked, s.tasks[t].priority, timeout > 0, EOK, timeout, Locals(value))
                   && t in s'.sendWait && Without(s'.sendWait, t) == s.sendWait
                   && (flag.Fifo? ==> s'.sendWait == s.sendWait + [t])
  {
    Unlisted(s, t);
    var s' := SendPass(s, flag, t, value, timeout);
    if s.entry != s.size {
      OneMore(s.history, Sent(value));
      WokenOne(s, t, s.recvWait, RecvWoken, s');
    } else if timeout != 0 {
      Intact(s);
      EnqueuedKeeps(s.sendWait, s'.tasks, t, flag);
      EnqueuedFacts(s.sendWait, s'.tasks, t, flag);
      assert t in Elements(s'.sendWait);
    }
  }

  /** An urgent send stores the mail in front of all others, or nothing happens. */
  lemma UrgentPassIs(s: State, t: Thread, value: Mail)
    requires Broken(s) == {} && t in s.tasks && s.tasks[t].at == Idle
    ensures var s' := UrgentPass(s, t, value);
            if s.entry == s.size then s' == s
            else
              && Replay(s'.history) == [value] + Replay(s.history) && s'.entry == s.entry + 1
              && WokenAt(s, s', t, s.recvWait, RecvWoken) && s'.recvWait == Rest(s.recvWait)
              && s'.sendWait == s.sendWait
  {
    Unlisted(s, t);
    if s.entry != s.size {
      OneMore(s.history, Urged(value));
      WokenOne(s, t, s.recvWait, RecvWoken, UrgentPass(s, t, value));
    }
  }

  /** A pass of the receive loop takes the first mail and wakes the first sender, comes back with an
      error, or waits. */
  lemma RecvPassIs(s: State, flag: Flag, t: Thread, timeout: int)
    requires Broken(s) == {} && t in s.tasks && s.tasks[t].at in {Idle, RecvWoken}
    ensures var s' := RecvPass(s, flag, t, timeout);
            if s.entry != 0 then
              && |Replay(s.history)| > 0 && Replay(s'.history) == Replay(s.history)[1..] && s'.entry == s.entry - 1
              && WokenAt(s, s', t, s.sendWait, SendWoken) && s'.sendWait == Rest(s.sendWait)
              && s'.recvWait == s.recvWait
            else
              && s'.history == s.history && s'.entry == s.entry && s'.sendWait == s.sendWait
              && t in s'.tasks && s'.tasks == s.tasks[t := s'.tasks[t]]
              && if timeout == 0 then
                   s'.tasks[t].at == Idle && s'.tasks[t].error == ETIMEOUT && s'.recvWait == s.recvWait
                 else
                   && s'.tasks[t] == Task(RecvBlocked, s.tasks[t].priority, timeout > 0, EOK, timeout, Locals(0))
                   && t in s'.recvWait && Without(s'.recvWait, t) == s.recvWait
                   && (flag.Fifo? ==> s'.recvWait == s.recvWait + [t])
  {
    Unlisted(s, t);
    Offsets(s);
    var s' := RecvPass(s, flag, t, timeout);
    if s.entry != 0 {
      OneMore(s.history, Taken(Replay(s.history)[0]));
      WokenOne(s, t, s.sendWait, SendWoken, s');
    } else if timeout != 0 {
      Intact(s);
      EnqueuedKeeps(s.recvWait, s'.tasks, t, flag);
      EnqueuedFacts(s.recvWait, s'.tasks, t, flag);
      assert t in Elements(s'.recvWait);
    }
  }

  /** A reset leaves nothing queued and nobody waiting; each waiter fails with an error. */
  lemma ResetIs(s: State, t: Thread)
    requires Broken(s) == {} && t in s.tasks
    ensures var s' := AfterReset(s);
            && s'.entry == 0 && Replay(s'.history) == [] && s'.recvWait == [] && s'.sendWait == [] && t in s'.tasks
            && var task := s.tasks[t];
               s'.tasks[t] == if t in s.recvWait || t in s.sendWait
                              then Task(Failed, task.priority, false, ERROR, task.timeout, task.locals) else task
  {
    OneMore(s.history, Cleared);
    AllFailedIs(s.tasks, s.recvWait, t);
    AllFailedIs(AllFailed(s.tasks, s.recvWait), s.sendWait, t);
  }

  // What the callers asked for

  /** Thread t, doing nothing, makes a call. */
  ghost predicate Calls(s: State, c: Command, t: Thread) {
    (c.Send? || c.Jump? || c.Receive?) && c.t == t && t in s.tasks && s.tasks[t].at == Idle
  }

  /** The call thread t made last; Clear if it made none. */
  ghost function LastCall(pool: seq<Mail>, flag: Flag, tasks: Tasks, schedule: seq<Command>, t: Thread): Command
    requires Startable(pool, tasks)
  {
    if schedule == [] then Clear
    else
      var front, c := schedule[..|schedule| - 1], schedule[|schedule| - 1];
      if Calls(After(pool, flag, tasks, front), c, t) then c else LastCall(pool, flag, tasks, front, t)
  }

  /** A suspended or woken thread carries what it was called with. */
  ghost predicate Carries(task: Task<Locals>, c: Command) {
    match task.at
    case SendBlocked => c.Send? && task.locals.value == c.value
    case SendWoken => c.Send? && task.locals.value == c.value
    case RecvBlocked => c.Receive?
    case RecvWoken => c.Receive?
    case _ => true
  }

  lemma WokenCarries(s: State, s': State, t: Thread, list: seq<Thread>, blocked: Point, woken: Point, x: Thread,
                     c: Command)
    requires WokenAt(s, s', t, list, woken) && Elements(list) == At(s.tasks, blocked)
    requires (blocked == SendBlocked && woken == SendWoken) || (blocked == RecvBlocked && woken == RecvWoken)
    requires x in s.tasks && Carries(s.tasks[x], c)
    ensures x in s'.tasks && Carries(s'.tasks[x], c)
  {
    if list != [] {
      assert list[0] in Elements(list);
    }
  }

  lemma SendCarries(s: State, flag: Flag, t: Thread, value: Mail, timeout: int, x: Thread, c: Command)
    requires Broken(s) == {} && t in s.tasks && s.tasks[t].at in {Idle, SendWoken}
    requires x in s.tasks && Carries(s.tasks[x], c) && (x == t ==> c.Send? && c.value == value)
    ensures var s' := SendPass(s, flag, t, value, timeout); x in s'.tasks && Carries(s'.tasks[x], c)
  {
    SendPassIs(s, flag, t, value, timeout);
    Intact(s);
    if s.entry != s.size {
      WokenCarries(s, SendPass(s, flag, t, value, timeout), t, s.recvWait, RecvBlocked, RecvWoken, x, c);
    }
  }

  lemma RecvCarries(s: State, flag: Flag, t: Thread, timeout: int, x: Thread, c: Command)
    requires Broken(s) == {} && t in s.tasks && s.tasks[t].at in {Idle, RecvWoken}
    requires x in s.tasks && Carries(s.tasks[x], c) && (x == t ==> c.Receive?)
    ensures var s' := RecvPass(s, flag, t, timeout); x in s'.tasks && Carries(s'.tasks[x], c)
  {
    RecvPassIs(s, flag, t, timeout);
    Intact(s);
    if s.entry != 0 {
      WokenCarries(s, RecvPass(s, flag, t, timeout), t, s.sendWait, SendBlocked, SendWoken, x, c);
    }
  }

  lemma StepCarries(s: State, flag: Flag, c: Command, x: Thread, call: Command)
    requires Broken(s) == {} && x in s.tasks && Carries(s.tasks[x], call)
    ensures var s' := Next(s, flag, c); x in s'.tasks && Carries(s'.tasks[x], if Calls(s, c, x) then c else call)
  {
    var now := if Calls(s, c, x) then c else call;
    if c.Clear? {
      AllFailedIs(s.tasks, s.recvWait, x);
      AllFailedIs(AllFailed(s.tasks, s.recvWait), s.sendWait, x);
    } else if c.t in s.tasks {
      var task := s.tasks[c.t];
      match c {
        case Send(t, value, timeout) => if task.at.Idle? { SendCarries(s, flag, t, value, timeout, x, now); }
        case Jump(t, value) =>
          if task.at.Idle? && s.entry != s.size {
            UrgentPassIs(s, t, value);
            Intact(s);
            WokenCarries(s, UrgentPass(s, t, value), t, s.recvWait, RecvBlocked, RecvWoken, x, now);
          }
        case Receive(t, timeout) => if task.at.Idle? { RecvCarries(s, flag, t, timeout, x, now); }
        case Expire(t) =>
        case Continue(t, elapsed) =>
          if task.at.SendWoken? {
            SendCarries(s, flag, t, task.locals.value, Remaining(task.timeout, elapsed), x, now);
          } else if task.at.RecvWoken? {
            RecvCarries(s, flag, t, Remaining(task.timeout, elapsed), x, now);
          }
      }
    }
  }

  /** In every run a suspended or woken thread has exactly the mail of the call it made last. */
  lemma {:induction false} CallsCarried(pool: seq<Mail>, flag: Flag, tasks: Tasks, schedule: seq<Command>, t: Thread)
    requires Startable(pool, tasks) && t in tasks
    ensures var s := After(pool, flag, tasks, schedule);
            t in s.tasks && Carries(s.tasks[t], LastCall(pool, flag, tasks, schedule, t))
  {
    if schedule != [] {
      var front := schedule[..|schedule| - 1];
      CallsCarried(pool, flag, tasks, front, t);
      StepCarries(After(pool, flag, tasks, front), flag, schedule[|schedule| - 1], t,
                  LastCall(pool, flag, tasks, front, t));
    }
  }

  lemma StepArrivals(s: State, flag: Flag, c: Command)
    requires Broken(s) == {}
    ensures Arrivals(Next(s, flag, c).history) ==
            Arrivals(s.history) + if Stores(s, c) then [MailOf(s, c)] else []
  {
    if c.Clear? {
      OneMoreArrival(s.history, Cleared);
    } else if Stores(s, c) {
      StepStores(s, flag, c);
      OneMoreArrival(s.history, if c.Jump? then Urged(MailOf(s, c)) else Sent(MailOf(s, c)));
    } else if Handed(s, c) != [] {
      StepTakes(s, flag, c);
      OneMoreArrival(s.history, Taken(Handed(s, c)[0]));
    } else {
      NoEvent(s, flag, c);
    }
  }

  lemma CallAt(pool: seq<Mail>, flag: Flag, tasks: Tasks, schedule: seq<Command>, c: Command)
    requires Startable(pool, tasks) && Stores(After(pool, flag, tasks, schedule), c)
    ensures var call := LastCall(pool, flag, tasks, schedule + [c], c.t);
            && (if c.Jump? then call.Jump? else call.Send?)
            && call.value == MailOf(After(pool, flag, tasks, schedule), c)
  {
    ThreadsKept(pool, flag, tasks, schedule);
    CallsCarried(pool, flag, tasks, schedule, c.t);
    assert (schedule + [c])[..|schedule|] == schedule;
  }

  lemma NextThreads(s: State, flag: Flag, c: Command)
    requires Broken(s) == {}
    ensures Next(s, flag, c).tasks.Keys == s.tasks.Keys
  {
    if c.Clear? {
      FailedThreads(s.tasks, s.recvWait);
      FailedThreads(AllFailed(s.tasks, s.recvWait), s.sendWait);
    }
  }

  lemma {:induction false} ThreadsKept(pool: seq<Mail>, flag: Flag, tasks: Tasks, schedule: seq<Command>)
    requires Startable(pool, tasks)
    ensures After(pool, flag, tasks, schedule).tasks.Keys == tasks.Keys
  {
    if schedule != [] {
      var front := schedule[..|schedule| - 1];
      ThreadsKept(pool, flag, tasks, front);
      NextThreads(After(pool, flag, tasks, front), flag, schedule[|schedule| - 1]);
    }
  }

  /** In every run a send that finds room puts the mail of its call in front of all that is queued
      if it is urgent, and behind all of it if not. */
  lemma StoredWhere(pool: seq<Mail>, flag: Flag, tasks: Tasks, schedule: seq<Command>, c: Command)
    requires Startable(pool, tasks) && Stores(After(pool, flag, tasks, schedule), c)
    ensures var call := LastCall(pool, flag, tasks, schedule + [c], c.t);
            var before := Replay(After(pool, flag, tasks, schedule).history);
            var after := Replay(After(pool, flag, tasks, schedule + [c]).history);
            && (call.Jump? || call.Send?)
            && after == if call.Jump? then [call.value] + before else before + [call.value]
  {
    var s := After(pool, flag, tasks, schedule);
    CallAt(pool, flag, tasks, schedule, c);
    StepStores(s, flag, c);
    OneMore(s.history, if c.Jump? then Urged(MailOf(s, c)) else Sent(MailOf(s, c)));
    assert (schedule + [c])[..|schedule|] == schedule;
  }

  function PassedTo(c: Command): Mail {
    if c.Send? || c.Jump? then c.value else 0
  }

  /** The mails of the calls that found room in a run, in that order. */
  ghost function Storings(pool: seq<Mail>, flag: Flag, tasks: Tasks, schedule: seq<Command>): seq<Mail>
    requires Startable(pool, tasks)
  {
    if schedule == [] then []
    else
      var front, c := schedule[..|schedule| - 1], schedule[|schedule| - 1];
      Storings(pool, flag, tasks, front)
          + if Stores(After(pool, flag, tasks, front), c)
            then [PassedTo(LastCall(pool, flag, tasks, schedule, c.t))] else []
  }

  /** In every run the mails that came in are those passed to the calls. */
  lemma {:induction false} ArrivalsAreCalls(pool: seq<Mail>, flag: Flag, tasks: Tasks, schedule: seq<Command>)
    requires Startable(pool, tasks)
    ensures Arrivals(After(pool, flag, tasks, schedule).history) == Storings(pool, flag, tasks, schedule)
  {
    if schedule != [] {
      var front, c := schedule[..|schedule| - 1], schedule[|schedule| - 1];
      ArrivalsAreCalls(pool, flag, tasks, front);
      StepArrivals(After(pool, flag, tasks, front), flag, c);
      if Stores(After(pool, flag, tasks, front), c) {
        CallAt(pool, flag, tasks, front, c);
        assert front + [c] == schedule;
      }
    }
  }

  /** Both lists stand in priority order. */
  ghost predicate InOrder(s: State) {
    Sorted(s.recvWait, s.tasks) && Sorted(s.sendWait, s.tasks)
  }

  lemma SendInOrder(s: State, t: Thread, value: Mail, timeout: int)
    requires Broken(s) == {} && InOrder(s) && t in s.tasks && s.tasks[t].at in {Idle, SendWoken}
    ensures InOrder(SendPass(s, Prio, t, value, timeout))
  {
    Intact(s);
    var s' := SendPass(s, Prio, t, value, timeout);
    SortedKept(s.recvWait, s.tasks, s'.tasks, t);
    SortedKept(s.sendWait, s.tasks, s'.tasks, t);
    if s.entry == s.size && timeout != 0 {
      EnqueuedSorted(s.sendWait, s'.tasks, t);
    }
  }

  lemma RecvInOrder(s: State, t: Thread, timeout: int)
    requires Broken(s) == {} && InOrder(s) && t in s.tasks && s.tasks[t].at in {Idle, RecvWoken}
    ensures InOrder(RecvPass(s, Prio, t, timeout))
  {
    Intact(s);
    var s' := RecvPass(s, Prio, t, timeout);
    SortedKept(s.recvWait, s.tasks, s'.tasks, t);
    SortedKept(s.sendWait, s.tasks, s'.tasks, t);
    if s.entry == 0 && timeout != 0 {
      EnqueuedSorted(s.recvWait, s'.tasks, t);
    }
  }

  lemma NextInOrder(s: State, c: Command)
    requires Broken(s) == {} && InOrder(s)
    ensures InOrder(Next(s, Prio, c))
  {
    Intact(s);
    var s' := Next(s, Prio, c);
    if !c.Clear? && c.t in s.tasks {
      var task := s.tasks[c.t];
      match c {
        case Send(t, value, timeout) => if task.at.Idle? { SendInOrder(s, t, value, timeout); }
        case Jump(t, value) =>
          SortedKept(s.recvWait, s.tasks, s'.tasks, t);
          SortedKept(s.sendWait, s.tasks, s'.tasks, t);
        case Receive(t, timeout) => if task.at.Idle? { RecvInOrder(s, t, timeout); }
        case Expire(t) =>
          SortedKept(s.recvWait, s.tasks, s'.tasks, t);
          SortedKept(s.sendWait, s.tasks, s'.tasks, t);
        case Continue(t, elapsed) =>
          if task.at.SendWoken? {
            SendInOrder(s, t, task.locals.value, Remaining(task.timeout, elapsed));
          } else if task.at.RecvWoken? {
            RecvInOrder(s, t, Remaining(task.timeout, elapsed));
          } else {
            SortedKept(s.recvWait, s.tasks, s'.tasks, t);
            SortedKept(s.sendWait, s.tasks, s'.tasks, t);
          }
      }
    }
  }

  /** In every run of a mailbox ordered by priority, the most urgent suspended thread stands
      first, and each newcomer stands behind its equals. */
  lemma {:induction false} WaitersInOrder(pool: seq<Mail>, tasks: Tasks, schedule: seq<Command>)
    requires Startable(pool, tasks)
    ensures InOrder(After(pool, Prio, tasks, schedule))
  {
    if schedule != [] {
      var before := schedule[..|schedule| - 1];
      WaitersInOrder(pool, tasks, before);
      NextInOrder(After(pool, Prio, tasks, before), schedule[|schedule| - 1]);
    }
  }

  // The mailbox

  class Box {
    const size: nat
    const flag: Flag
    const pool: array<Mail>
    var inOffset: nat
    var outOffset: nat
    var entry: nat
    var recvWait: seq<Thread>
    var sendWait: seq<Thread>
    var tasks: Tasks
    ghost var history: seq<Event<Mail>>

    ghost function Now(): State
      reads this, pool
    {
      State(size, pool[..], inOffset, outOffset, entry, recvWait, sendWait, tasks, history)
    }

    ghost predicate Valid()
      reads this, pool
    {
      Broken(Now()) == {}
    }

    /** rt_mb_init on a buffer of pool.Length words. */
    constructor (pool: array<Mail>, flag: Flag, tasks: Tasks)
      requires pool.Length <= ENTRY_MAX && forall t :: t in tasks ==> tasks[t].at == Idle
      ensures Valid() && Now() == Fresh(pool[..], tasks) && this.flag == flag && this.pool == pool
    {
      size := pool.Length;
      this.pool := pool;
      this.flag := flag;
      this.tasks := tasks;
      inOffset, outOffset, entry := 0, 0, 0;
      recvWait, sendWait, history := [], [], [];
      new;
      FreshIsWhole(pool[..], tasks);
    }

    /** Stores the caller's mail and wakes the first suspended receiver. */
    method Put(t: Thread, value: Mail) returns (r: Outcome)
      requires Valid() && t in tasks && tasks[t].at in {Idle, SendWoken} && entry != size
      modifies pool, this`inOffset, this`entry, this`recvWait, this`tasks, this`history
      ensures Valid() && r == Returned(EOK) && old(inOffset) < pool.Length
      ensures Now() == Posted(old(Now()), t, old(tasks)[t].(at := Idle), value)
    {
      ghost var s := Now();
      Offsets(s);
      var task := tasks[t].(at := Idle);
      PostKeeps(s, t, task, value);
      pool[inOffset] := value;
      inOffset := inOffset + 1;
      if inOffset >= size {
        inOffset := 0;
      }
      if entry < ENTRY_MAX {
        entry := entry + 1;
      } else {
        return Returned(EFULL);
      }
      history := history + [Sent(value)];
      tasks, recvWait := Roused(tasks[t := task], recvWait, RecvWoken), Rest(recvWait);
      assert Now() == Posted(s, t, task, value);
      r := Returned(EOK);
    }

    /** One pass of the send loop: wait for a free place, or use it. */
    method Attempt(t: Thread, value: Mail, timeout: int) returns (r: Outcome)
      requires Valid() && t in tasks && tasks[t].at in {Idle, SendWoken}
      modifies pool, this`inOffset, this`entry, this`recvWait, this`sendWait, this`tasks, this`history
      ensures Valid() && Now() == SendPass(old(Now()), flag, t, value, timeout)
      ensures r == if old(entry) != size then Returned(EOK) else if timeout == 0 then Returned(EFULL) else Suspended
    {
      if entry != size {
        r := Put(t, value);
        return;
      }
      ghost var s := Now();
      if timeout == 0 {
        var task := tasks[t].(at := Idle, error := EOK);
        MoveKeeps(s, t, task);
        tasks := tasks[t := task];
        assert Now() == Moved(s, t, task);
        return Returned(EFULL);
      }
      var task := Task(SendBlocked, tasks[t].priority, timeout > 0, EOK, timeout, Locals(value));
      SuspendSenderKeeps(s, t, task, flag);
      tasks := tasks[t := task];
      sendWait := Suspend(sendWait, tasks, t, flag);
      assert Now() == SenderSuspended(s, t, task, flag);
      r := Suspended;
    }

    /** rt_mb_send_wait, up to the first suspension. */
    method SendWait(t: Thread, value: Mail, timeout: int) returns (r: Outcome)
      requires Valid() && t in tasks && tasks[t].at == Idle
      modifies pool, this`inOffset, this`entry, this`recvWait, this`sendWait, this`tasks, this`history
      ensures Valid()
      ensures Now() == if old(entry) == size && timeout == 0 then old(Now())
              else SendPass(old(Now()), flag, t, value, timeout)
      ensures r == if old(entry) != size then Returned(EOK) else if timeout == 0 then Returned(EFULL) else Suspended
    {
      if entry == size && timeout == 0 {
        return Returned(EFULL);
      }
      r := Attempt(t, value, timeout);
    }

    /** A woken sender goes round its loop again, with what is left of its timeout. */
    method SendRetry(t: Thread, elapsed: nat) returns (r: Outcome)
      requires Valid() && t in tasks && tasks[t].at == SendWoken
      modifies pool, this`inOffset, this`entry, this`recvWait, this`sendWait, this`tasks, this`history
      ensures Valid() && t in old(tasks)
      ensures var left := Remaining(old(tasks)[t].timeout, elapsed);
              && Now() == SendPass(old(Now()), flag, t, old(tasks)[t].locals.value, left)
              && r == if old(entry) != size then Returned(EOK) else if left == 0 then Returned(EFULL) else Suspended
    {
      r := Attempt(t, tasks[t].locals.value, Remaining(tasks[t].timeout, elapsed));
    }

    /** rt_mb_urgent. */
    method Urgent(t: Thread, value: Mail) returns (r: Outcome)
      requires Valid() && t in tasks && tasks[t].at == Idle
      modifies pool, this`outOffset, this`entry, this`recvWait, this`tasks, this`history
      ensures Valid() && Now() == UrgentPass(old(Now()), t, value)
      ensures r == Returned(if old(entry) != size then EOK else EFULL)
    {
      if entry == size {
        return Returned(EFULL);
      }
      ghost var s := Now();
      Offsets(s);
      var task := tasks[t].(at := Idle);
      JumpKeeps(s, t, task, value);
      if outOffset > 0 {
        outOffset := outOffset - 1;
      } else {
        outOffset := size - 1;
      }
      pool[outOffset] := value;
      entry := entry + 1;
      history := history + [Urged(value)];
      tasks, recvWait := Roused(tasks[t := task], recvWait, RecvWoken), Rest(recvWait);
      assert Now() == Jumped(s, t, task, value);
      r := Returned(EOK);
    }

    /** Takes the first mail and wakes the first suspended sender. */
    method Get(t: Thread) returns (r: Outcome, value: Mail)
      requires Valid() && t in tasks && tasks[t].at in {Idle, RecvWoken} && entry != 0
      modifies this`outOffset, this`entry, this`sendWait, this`tasks, this`history
      ensures Valid() && r == Returned(EOK) && Replay(old(history)) != [] && value == Replay(old(history))[0]
      ensures old(entry) > 0 && Now() == Collected(old(Now()), t, old(tasks)[t].(at := Idle))
    {
      ghost var s := Now();
      Offsets(s);
      var task := tasks[t].(at := Idle);
      CollectKeeps(s, t, task);
      value := pool[outOffset];
      outOffset := outOffset + 1;
      if outOffset >= size {
        outOffset := 0;
      }
      if entry > 0 {
        entry := entry - 1;
      }
      history := history + [Taken(value)];
      tasks, sendWait := Roused(tasks[t := task], sendWait, SendWoken), Rest(sendWait);
      assert Now() == Collected(s, t, task);
      r := Returned(EOK);
    }

    /** One pass of the receive loop: wait for a mail, or take it. */
    method AttemptRecv(t: Thread, timeout: int) returns (r: Outcome, value: Mail)
      requires Valid() && t in tasks && tasks[t].at in {Idle, RecvWoken}
      modifies this`outOffset, this`entry, this`recvWait, this`sendWait, this`tasks, this`history
      ensures Valid() && Now() == RecvPass(old(Now()), flag, t, timeout)
      ensures r == if old(entry) != 0 then Returned(EOK) else if timeout == 0 then Returned(ETIMEOUT) else Suspended
      ensures old(entry) != 0 ==> Replay(old(history)) != [] && value == Replay(old(history))[0]
    {
      if entry != 0 {
        r, value := Get(t);
        return;
      }
      ghost var s := Now();
      value := 0;
      if timeout == 0 {
        var task := tasks[t].(at := Idle, error := ETIMEOUT);
        MoveKeeps(s, t, task);
        tasks := tasks[t := task];
        assert Now() == Moved(s, t, task);
        return Returned(ETIMEOUT), value;
      }
      var task := Task(RecvBlocked, tasks[t].priority, timeout > 0, EOK, timeout, Locals(0));
      SuspendReceiverKeeps(s, t, task, flag);
      tasks := tasks[t := task];
      recvWait := Suspend(recvWait, tasks, t, flag);
      assert Now() == ReceiverSuspended(s, t, task, flag);
      r := Suspended;
    }

    /** rt_mb_recv, up to the first suspension. */
    method Recv(t: Thread, timeout: int) returns (r: Outcome, value: Mail)
      requires Valid() && t in tasks && tasks[t].at == Idle
      modifies this`outOffset, this`entry, this`recvWait, this`sendWait, this`tasks, this`history
      ensures Valid()
      ensures Now() == if old(entry) == 0 && timeout == 0 then old(Now()) else RecvPass(old(Now()), flag, t, timeout)
      ensures r == if old(entry) != 0 then Returned(EOK) else if timeout == 0 then Returned(ETIMEOUT) else Suspended
      ensures old(entry) != 0 ==> Replay(old(history)) != [] && value == Replay(old(history))[0]
    {
      if entry == 0 && timeout == 0 {
        return Returned(ETIMEOUT), 0;
      }
      r, value := AttemptRecv(t, timeout);
    }

    /** A woken receiver goes round its loop again, with what is left of its timeout. */
    method RecvRetry(t: Thread, elapsed: nat) returns (r: Outcome, value: Mail)
      requires Valid() && t in tasks && tasks[t].at == RecvWoken
      modifies this`outOffset, this`entry, this`recvWait, this`sendWait, this`tasks, this`history
      ensures Valid() && t in old(tasks)
      ensures var left := Remaining(old(tasks)[t].timeout, elapsed);
              && Now() == RecvPass(old(Now()), flag, t, left)
              && r == if old(entry) != 0 then Returned(EOK) else if left == 0 then Returned(ETIMEOUT) else Suspended
      ensures old(entry) != 0 ==> Replay(old(history)) != [] && value == Replay(old(history))[0]
    {
      r, value := AttemptRecv(t, Remaining(tasks[t].timeout, elapsed));
    }

    /** A suspended thread's timer fires (rt_thread_timeout). */
    method Timeout(t: Thread)
      requires Valid() && t in tasks && tasks[t].at in {SendBlocked, RecvBlocked} && tasks[t].timer
      modifies this`tasks, this`recvWait, this`sendWait
      ensures Valid() && tasks == old(tasks)[t := old(tasks)[t].(at := Failed, timer := false, error := ETIMEOUT)]
      ensures recvWait == Without(old(recvWait), t) && sendWait == Without(old(sendWait), t)
    {
      ghost var s := Now();
      var task := tasks[t].(at := Failed, timer := false, error := ETIMEOUT);
      ExpelKeeps(s, t, task);
      tasks := tasks[t := task];
      recvWait, sendWait := Without(recvWait, t), Without(sendWait, t);
      assert Now() == Expelled(s, t, task);
    }

    /** A thread resumed with an error number returns it. */
    method Fail(t: Thread) returns (r: Outcome)
      requires Valid() && t in tasks && tasks[t].at == Failed
      modifies this`tasks
      ensures Valid() && r == Returned(old(tasks)[t].error)
      ensures tasks == old(tasks)[t := old(tasks)[t].(at := Idle)]
    {
      ghost var s := Now();
      r := Returned(tasks[t].error);
      var task := tasks[t].(at := Idle);
      MoveKeeps(s, t, task);
      tasks := tasks[t := task];
      assert Now() == Moved(s, t, task);
    }

    method FailReceivers()
      requires Valid()
      modifies this`tasks, this`recvWait
      ensures Valid() && recvWait == [] && tasks == AllFailed(old(tasks), old(recvWait))
    {
      while recvWait != []
        invariant Valid() && AllFailed(tasks, recvWait) == AllFailed(old(tasks), old(recvWait))
        decreases |recvWait|
      {
        ghost var s := Now();
        HeadBlocked(s);
        var t := recvWait[0];
        var task := tasks[t].(at := Failed, timer := false, error := ERROR);
        ExpelKeeps(s, t, task);
        tasks := tasks[t := task];
        recvWait := recvWait[1..];
        assert Now() == Expelled(s, t, task);
      }
    }

    method FailSenders()
      requires Valid()
      modifies this`tasks, this`sendWait
      ensures Valid() && sendWait == [] && tasks == AllFailed(old(tasks), old(sendWait))
    {
      while sendWait != []
        invariant Valid() && AllFailed(tasks, sendWait) == AllFailed(old(tasks), old(sendWait))
        decreases |sendWait|
      {
        ghost var s := Now();
        HeadBlocked(s);
        var t := sendWait[0];
        var task := tasks[t].(at := Failed, timer := false, error := ERROR);
        ExpelKeeps(s, t, task);
        tasks := tasks[t := task];
        sendWait := sendWait[1..];
        assert Now() == Expelled(s, t, task);
      }
    }

    /** rt_mb_control with the reset command. */
    method Reset()
      requires Valid()
      modifies this`inOffset, this`outOffset, this`entry, this`recvWait, this`sendWait, this`tasks, this`history
      ensures Valid() && Now() == AfterReset(old(Now()))
    {
      FailReceivers();
      FailSenders();
      ghost var s := Now();
      ClearKeeps(s);
      entry, inOffset, outOffset := 0, 0, 0;
      history := history + [Cleared];
      assert Now() == s.(entry := 0, inOffset := 0, outOffset := 0, history := s.history + [Cleared]);
    }

    /** One step of some thread, if the thread is there; otherwise nothing. */
    method Perform(c: Command) returns (given: seq<Mail>)
      requires Valid()
      modifies this, pool
      ensures Valid() && Now() == Next(old(Now()), flag, c) && given == Handed(old(Now()), c)
    {
      given := [];
      if c.Clear? {
        Reset();
        return;
      }
      if c.t !in tasks {
        return;
      }
      var t, at := c.t, tasks[c.t].at;
      match c {
        case Send(_, value, timeout) => if at.Idle? { var r := SendWait(t, value, timeout); }
        case Jump(_, value) => if at.Idle? { var r := Urgent(t, value); }
        case Receive(_, timeout) =>
          if at.Idle? {
            var r, value := Recv(t, timeout);
            given := if r == Returned(EOK) then [value] else [];
          }
        case Expire(_) => if at in {SendBlocked, RecvBlocked} && tasks[t].timer { Timeout(t); }
        case Continue(_, elapsed) =>
          if at.SendWoken? {
            var r := SendRetry(t, elapsed);
          } else if at.RecvWoken? {
            var r, value := RecvRetry(t, elapsed);
            given := if r == Returned(EOK) then [value] else [];
          } else if at.Failed? {
            var r := Fail(t);
          }
      }
    }
  }

  /** Running the steps one by one gives the state the lemmas above speak of, and
      hands out exactly the mails received there. */
  method Run(pool: array<Mail>, flag: Flag, tasks: Tasks, schedule: seq<Command>) returns (b: Box, given: seq<Mail>)
    requires pool.Length <= ENTRY_MAX && forall t :: t in tasks ==> tasks[t].at == Idle
    modifies pool
    ensures b.pool == pool && b.Valid() && b.Now() == After(old(pool[..]), flag, tasks, schedule)
    ensures given == Receipts(b.history)
  {
    b := new Box(pool, flag, tasks);
    given := [];
    for i := 0 to |schedule|
      invariant b.Valid() && fresh(b) && b.pool == pool && b.flag == flag
      invariant b.Now() == After(old(pool[..]), flag, tasks, schedule[..i]) && given == Receipts(b.history)
    {
      assert schedule[..i + 1][..i] == schedule[..i];
      HandedIsReceived(b.Now(), flag, schedule[i]);
      var more := b.Perform(schedule[i]);
      given := given + more;
    }
    assert schedule[..|schedule|] == schedule;
  }
}
