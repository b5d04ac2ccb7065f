/** Event sets (ipc.c): threads wait for bits of one word. Each method of Event is one
    region the kernel runs with interrupts disabled. */
module Events {
  import opened Sequences
  import opened WaitLists

  type Bits = bv32

  function Meet(a: Bits, b: Bits): Bits {
    a & b
  }

  function Join(a: Bits, b: Bits): Bits {
    a | b
  }

  function Minus(a: Bits, b: Bits): Bits {
    a & !b
  }

  /** The wait condition on bits e; the all-bits flag is looked at first. */
  predicate Holds(all: bool, any: bool, e: Bits, b: Bits) {
    if all then Meet(e, b) == e else any && Meet(e, b) != 0
  }

  /** It asks for every bit of e, or for some. */
  lemma HoldsIs(any: bool, e: Bits, b: Bits)
    ensures Holds(true, any, e, b) <==> e & !b == 0
    ensures Holds(false, true, e, b) <==> e & b != 0
    ensures !Holds(false, false, e, b)
  {
  }

  lemma MaskAll(e: Bits, b: Bits, r: Bits)
    ensures e & (b & !r) == e ==> e & b == e
  {
  }

  lemma MaskAny(e: Bits, b: Bits, r: Bits)
    ensures e & (b & !r) != 0 ==> e & b != 0
  {
  }

  lemma Masked(all: bool, any: bool, e: Bits, b: Bits, r: Bits)
    requires !Holds(all, any, e, b)
    ensures !Holds(all, any, e, Minus(b, r))
  {
    MaskAll(e, b, r);
    MaskAny(e, b, r);
  }

  lemma Gone(a: Bits, r: Bits)
    ensures Meet(Minus(a, r), r) == 0
  {
  }

  lemma StillGone(a: Bits, r: Bits, m: Bits)
    requires Meet(a, m) == 0
    ensures Meet(Minus(a, r), m) == 0
  {
  }

  lemma MinusWithin(a: Bits, r: Bits)
    ensures Minus(Minus(a, r), a) == 0
  {
  }

  lemma Within(a: Bits, b: Bits, c: Bits)
    requires Minus(a, b) == 0 && Minus(b, c) == 0
    ensures Minus(a, c) == 0
  {
  }

  lemma WithinSelf(a: Bits)
    ensures Minus(a, a) == 0
  {
  }

  lemma TakenBy(a: Bits, r: Bits, m: Bits)
    requires Meet(a, m) != 0 && Meet(Minus(a, r), m) == 0
    ensures Meet(r, m) != 0
  {
  }

  lemma MeetWithin(e: Bits, b: Bits)
    ensures Minus(Meet(e, b), e) == 0 && Minus(Meet(e, b), b) == 0
  {
  }

  lemma AllWithin(e: Bits, b: Bits)
    requires Meet(e, b) == e
    ensures Minus(e, b) == 0
  {
  }

  lemma MeetGrows(e: Bits, b: Bits, c: Bits)
    requires Minus(b, c) == 0
    ensures Minus(Meet(e, b), Meet(e, c)) == 0
  {
  }

  /** Nobody receives a bit that is not set. */
  lemma NotReceived(all: bool, any: bool, e: Bits, b: Bits, m: Bits)
    requires Meet(b, m) == 0
    ensures Meet(Meet(e, b), m) == 0
    ensures all && Holds(all, any, e, b) ==> Meet(e, m) == 0
  {
  }

  /** How a receiver waits: for all bits or for any, and whether it clears what it got. */
  datatype Info = Info(all: bool, any: bool, clear: bool)

  /** event_set and event_info of a thread. */
  datatype Locals = Locals(eventSet: Bits, info: Info)

  type Tasks = map<Thread, Task<Locals>>

  // Conditions

  predicate Satisfied(bits: Bits, l: Locals) {
    Holds(l.info.all, l.info.any, l.eventSet, bits)
  }

  /** The bits a woken receiver finds in its event_set. */
  function Received(bits: Bits, l: Locals): Bits {
    if l.info.all then l.eventSet else Meet(l.eventSet, bits)
  }

  function Cleared(bits: Bits, l: Locals): Bits {
    if l.info.clear then Minus(bits, Received(bits, l)) else bits
  }

  /** Clearing bits satisfies nobody. */
  lemma ClearingWakesNobody(bits: Bits, l: Locals, m: Locals)
    requires !Satisfied(bits, m)
    ensures !Satisfied(Cleared(bits, l), m)
  {
    Masked(m.info.all, m.info.any, m.eventSet, bits, Received(bits, l));
  }

  // One send

  /** What a send does to the waiters from the front: each looks at what the ones woken
      before it left. */
  datatype Swept = Swept(bits: Bits, wait: seq<Thread>, tasks: Tasks)

  function Woken(bits: Bits, task: Task<Locals>): Task<Locals> {
    task.(at := Granted, timer := false, locals := task.locals.(eventSet := Received(bits, task.locals)))
  }

  function Sweep(bits: Bits, wait: seq<Thread>, tasks: Tasks): Swept
    decreases |wait|
  {
    if wait == [] then Swept(bits, [], tasks)
    else
      var t := wait[0];
      if t in tasks && Satisfied(bits, tasks[t].locals)
      then Sweep(Cleared(bits, tasks[t].locals), wait[1..], tasks[t := Woken(bits, tasks[t])])
      else var r := Sweep(bits, wait[1..], tasks); r.(wait := [t] + r.wait)
  }

  lemma SweepFrom(bits: Bits, wait: seq<Thread>, n: nat, tasks: Tasks)
    requires n < |wait| && wait[n] in tasks
    ensures if Satisfied(bits, tasks[wait[n]].locals) then
              Sweep(bits, wait[n..], tasks) ==
              Sweep(Cleared(bits, tasks[wait[n]].locals), wait[n + 1..], tasks[wait[n] := Woken(bits, tasks[wait[n]])])
            else
              var r := Sweep(bits, wait[n + 1..], tasks);
              Sweep(bits, wait[n..], tasks) == Swept(r.bits, [wait[n]] + r.wait, r.tasks)
  {
    assert wait[n..][0] == wait[n] && wait[n..][1..] == wait[n + 1..];
  }

  /** Waiters whose condition holds: none is left suspended. */
  ghost function Overdue(bits: Bits, wait: seq<Thread>, tasks: Tasks): set<Thread> {
    set t | t in wait && t in tasks && Satisfied(bits, tasks[t].locals)
  }

  /** Bits only get cleared while the list is swept. */
  lemma {:induction false} SweepClears(bits: Bits, wait: seq<Thread>, tasks: Tasks, m: Locals)
    requires !Satisfied(bits, m)
    ensures !Satisfied(Sweep(bits, wait, tasks).bits, m)
    decreases |wait|
  {
    if wait != [] {
      var t := wait[0];
      if t in tasks && Satisfied(bits, tasks[t].locals) {
        ClearingWakesNobody(bits, tasks[t].locals, m);
        SweepClears(Cleared(bits, tasks[t].locals), wait[1..], tasks[t := Woken(bits, tasks[t])], m);
      } else {
        SweepClears(bits, wait[1..], tasks, m);
      }
    }
  }

  /** Threads that are not swept over keep their state, and nobody joins the list. */
  lemma {:induction false} SweepFrame(bits: Bits, wait: seq<Thread>, tasks: Tasks, t: Thread)
    ensures Sweep(bits, wait, tasks).tasks.Keys == tasks.Keys
    ensures t in Sweep(bits, wait, tasks).wait ==> t in wait
    ensures t !in wait && t in tasks ==> Sweep(bits, wait, tasks).tasks[t] == tasks[t]
    decreases |wait|
  {
    if wait != [] {
      var h := wait[0];
      if h in tasks && Satisfied(bits, tasks[h].locals) {
        SweepFrame(Cleared(bits, tasks[h].locals), wait[1..], tasks[h := Woken(bits, tasks[h])], t);
      } else {
        SweepFrame(bits, wait[1..], tasks, t);
      }
    }
  }

  /** After a send no suspended waiter's condition holds, although bits were cleared midway. */
  lemma {:induction false} SweepLeavesNone(bits: Bits, wait: seq<Thread>, tasks: Tasks)
    requires Distinct(wait)
    ensures var r := Sweep(bits, wait, tasks); Overdue(r.bits, r.wait, r.tasks) == {}
    decreases |wait|
  {
    if wait != [] {
      var t := wait[0];
      if t in tasks && Satisfied(bits, tasks[t].locals) {
        SweepLeavesNone(Cleared(bits, tasks[t].locals), wait[1..], tasks[t := Woken(bits, tasks[t])]);
      } else {
        SweepLeavesNone(bits, wait[1..], tasks);
        SweepFrame(bits, wait[1..], tasks, t);
        var r := Sweep(bits, wait[1..], tasks);
        if t in tasks {
          SweepClears(bits, wait[1..], tasks, tasks[t].locals);
        }
        var all := [t] + r.wait;
        forall x | x in all ensures x !in Overdue(r.bits, all, r.tasks) {
          assert x !in Overdue(r.bits, r.wait, r.tasks);
        }
      }
    }
  }

  /** The threads still waiting are still blocked; the woken ones are not. */
  lemma {:induction false} SweepBlocked(bits: Bits, wait: seq<Thread>, tasks: Tasks)
    requires Distinct(wait) && forall t :: t in wait ==> t in tasks && tasks[t].at == TakeBlocked
    ensures var r := Sweep(bits, wait, tasks);
            && Distinct(r.wait) && Elements(r.wait) <= Elements(wait)
            && At(r.tasks, TakeBlocked) == At(tasks, TakeBlocked) - (Elements(wait) - Elements(r.wait))
    decreases |wait|
  {
    if wait != [] {
      var t := wait[0];
      HeadFacts(wait);
      if Satisfied(bits, tasks[t].locals) {
        var tasks' := tasks[t := Woken(bits, tasks[t])];
        Stepped(tasks, t, Woken(bits, tasks[t]), TakeBlocked);
        SweepBlocked(Cleared(bits, tasks[t].locals), wait[1..], tasks');
      } else {
        SweepBlocked(bits, wait[1..], tasks);
        var r := Sweep(bits, wait[1..], tasks);
        assert t !in Elements(r.wait);
        assert Elements([t] + r.wait) == Elements(r.wait) + {t};
        assert ([t] + r.wait)[1..] == r.wait;
      }
    }
  }

  /** No woken thread receives a bit of mask once these bits are clear. */
  lemma {:induction false} SweepGets(bits: Bits, wait: seq<Thread>, tasks: Tasks, mask: Bits, x: Thread)
    requires Distinct(wait) && Meet(bits, mask) == 0
    requires x in wait && x in tasks && x !in Sweep(bits, wait, tasks).wait
    ensures x in Sweep(bits, wait, tasks).tasks && Meet(Sweep(bits, wait, tasks).tasks[x].locals.eventSet, mask) == 0
    decreases |wait|
  {
    var t := wait[0];
    if t in tasks && Satisfied(bits, tasks[t].locals) {
      var l := tasks[t].locals;
      var tasks' := tasks[t := Woken(bits, tasks[t])];
      NotReceived(l.info.all, l.info.any, l.eventSet, bits, mask);
      StillGone(bits, Received(bits, l), mask);
      if x == t {
        SweepFrame(Cleared(bits, l), wait[1..], tasks', t);
      } else {
        SweepGets(Cleared(bits, l), wait[1..], tasks', mask, x);
      }
    } else {
      SweepGets(bits, wait[1..], tasks, mask, x);
    }
  }

  /** A waiter that clears what it receives keeps it for itself: no thread woken after it by
      the same send receives any of these bits. */
  lemma ClearedOnce(bits: Bits, wait: seq<Thread>, tasks: Tasks, x: Thread)
    requires Distinct(wait) && wait != [] && wait[0] in tasks
    requires Satisfied(bits, tasks[wait[0]].locals) && tasks[wait[0]].locals.info.clear
    requires x in wait[1..] && x in tasks && x !in Sweep(bits, wait, tasks).wait
    ensures x in Sweep(bits, wait, tasks).tasks
    ensures Meet(Sweep(bits, wait, tasks).tasks[x].locals.eventSet, Received(bits, tasks[wait[0]].locals)) == 0
  {
    var l := tasks[wait[0]].locals;
    Gone(bits, Received(bits, l));
    SweepGets(Cleared(bits, l), wait[1..], tasks[wait[0] := Woken(bits, tasks[wait[0]])], Received(bits, l), x);
  }

  // What a send adds, and who takes it

  lemma ClearedWithin(bits: Bits, l: Locals)
    ensures Minus(Cleared(bits, l), bits) == 0
  {
    MinusWithin(bits, Received(bits, l));
    WithinSelf(bits);
  }

  lemma {:induction false} SweepWithin(bits: Bits, wait: seq<Thread>, tasks: Tasks)
    ensures Minus(Sweep(bits, wait, tasks).bits, bits) == 0
    decreases |wait|
  {
    if wait == [] {
      WithinSelf(bits);
    } else {
      var t := wait[0];
      if t in tasks && Satisfied(bits, tasks[t].locals) {
        var left := Cleared(bits, tasks[t].locals);
        SweepWithin(left, wait[1..], tasks[t := Woken(bits, tasks[t])]);
        ClearedWithin(bits, tasks[t].locals);
        Within(Sweep(bits, wait, tasks).bits, left, bits);
      } else {
        SweepWithin(bits, wait[1..], tasks);
      }
    }
  }

  /** Bits of mask m are lost only to a thread that is woken, clears, and receives some of them. */
  lemma {:induction false} SweepTakes(bits: Bits, wait: seq<Thread>, tasks: Tasks, m: Bits) returns (t: Thread)
    requires Distinct(wait) && Meet(bits, m) != 0 && Meet(Sweep(bits, wait, tasks).bits, m) == 0
    ensures t in wait && t !in Sweep(bits, wait, tasks).wait && t in tasks && tasks[t].locals.info.clear
    ensures t in Sweep(bits, wait, tasks).tasks && Meet(Sweep(bits, wait, tasks).tasks[t].locals.eventSet, m) != 0
    decreases |wait|
  {
    t := wait[0];
    if t in tasks && Satisfied(bits, tasks[t].locals) {
      var left, tasks' := Cleared(bits, tasks[t].locals), tasks[t := Woken(bits, tasks[t])];
      if Meet(left, m) == 0 {
        TakenBy(bits, Received(bits, tasks[t].locals), m);
        SweepFrame(left, wait[1..], tasks', t);
      } else {
        t := SweepTakes(left, wait[1..], tasks', m);
      }
    } else {
      t := SweepTakes(bits, wait[1..], tasks, m);
    }
  }

  /** What a thread that asked with locals l finds when it is woken. */
  ghost predicate Answers(got: Bits, l: Locals) {
    if l.info.all then got == l.eventSet else l.info.any && got != 0 && Minus(got, l.eventSet) == 0
  }

  lemma ReceivedAnswers(bits: Bits, l: Locals, final: Bits)
    requires Satisfied(bits, l) && Minus(final, bits) == 0
    ensures Answers(Received(bits, l), l) && Minus(Received(bits, l), bits) == 0
    ensures Minus(Meet(l.eventSet, final), Received(bits, l)) == 0
  {
    MeetWithin(l.eventSet, bits);
    MeetWithin(l.eventSet, final);
    MeetGrows(l.eventSet, final, bits);
    if l.info.all {
      AllWithin(l.eventSet, bits);
    }
  }

  /** A woken thread receives what it asked for, of what was set, and of that everything nobody
      cleared; one that stays is not touched. */
  lemma {:induction false} SweepGives(bits: Bits, wait: seq<Thread>, tasks: Tasks, t: Thread)
    requires Distinct(wait) && t in wait && t in tasks
    ensures var r, l := Sweep(bits, wait, tasks), tasks[t].locals;
            && t in r.tasks
            && if t in r.wait then r.tasks[t] == tasks[t]
               else
                 var got := r.tasks[t].locals.eventSet;
                 && r.tasks[t] == tasks[t].(at := Granted, timer := false, locals := Locals(got, l.info))
                 && Answers(got, l) && Minus(got, bits) == 0 && Minus(Meet(l.eventSet, r.bits), got) == 0
    decreases |wait|
  {
    var h := wait[0];
    if h in tasks && Satisfied(bits, tasks[h].locals) {
      var l := tasks[h].locals;
      var left, tasks' := Cleared(bits, l), tasks[h := Woken(bits, tasks[h])];
      ClearedWithin(bits, l);
      SweepWithin(left, wait[1..], tasks');
      if t == h {
        SweepFrame(left, wait[1..], tasks', t);
        Within(Sweep(bits, wait, tasks).bits, left, bits);
        ReceivedAnswers(bits, l, Sweep(bits, wait, tasks).bits);
      } else {
        SweepGives(left, wait[1..], tasks', t);
        var r := Sweep(bits, wait, tasks);
        if t !in r.wait {
          Within(r.tasks[t].locals.eventSet, left, bits);
        }
      }
    } else {
      SweepFrame(bits, wait[1..], tasks, t);
      if t != h {
        SweepGives(bits, wait[1..], tasks, t);
      }
    }
  }

  /** The list without some of its threads. */
  function Kept(wait: seq<Thread>, gone: set<Thread>): seq<Thread> {
    if wait == [] then [] else (if wait[0] in gone then [] else [wait[0]]) + Kept(wait[1..], gone)
  }

  lemma {:induction false} KeptSame(wait: seq<Thread>, gone: set<Thread>, gone': set<Thread>)
    requires forall t :: t in wait ==> (t in gone <==> t in gone')
    ensures Kept(wait, gone) == Kept(wait, gone')
  {
    if wait != [] {
      KeptSame(wait[1..], gone, gone');
    }
  }

  /** Those that stay keep their order. */
  lemma {:induction false} SweepOrder(bits: Bits, wait: seq<Thread>, tasks: Tasks)
    requires Distinct(wait)
    ensures var r := Sweep(bits, wait, tasks); r.wait == Kept(wait, Elements(wait) - Elements(r.wait))
    decreases |wait|
  {
    if wait != [] {
      var t, r := wait[0], Sweep(bits, wait, tasks);
      var rest := if t in tasks && Satisfied(bits, tasks[t].locals)
                  then Sweep(Cleared(bits, tasks[t].locals), wait[1..], tasks[t := Woken(bits, tasks[t])])
                  else Sweep(bits, wait[1..], tasks);
      if t in tasks && Satisfied(bits, tasks[t].locals) {
        SweepOrder(Cleared(bits, tasks[t].locals), wait[1..], tasks[t := Woken(bits, tasks[t])]);
        SweepFrame(Cleared(bits, tasks[t].locals), wait[1..], tasks[t := Woken(bits, tasks[t])], t);
      } else {
        SweepOrder(bits, wait[1..], tasks);
        SweepFrame(bits, wait[1..], tasks, t);
      }
      KeptSame(wait[1..], Elements(wait[1..]) - Elements(rest.wait), Elements(wait) - Elements(r.wait));
    }
  }

  // One receiver and one send, in either order

  /** What a receiver got, if it did, and the bits left. */
  datatype Delivery = Waits(bits: Bits) | Got(received: Bits, bits: Bits)

  /** rt_event_recv with nothing else going on. */
  function RecvAlone(bits: Bits, l: Locals): Delivery {
    if Satisfied(bits, l) then Got(Meet(bits, l.eventSet), if l.info.clear then Minus(bits, l.eventSet) else bits)
    else Waits(bits)
  }

  function SendThenRecv(bits: Bits, l: Locals, x: Bits): Delivery {
    RecvAlone(Join(bits, x), l)
  }

  function RecvThenSend(bits: Bits, l: Locals, x: Bits): Delivery {
    match RecvAlone(bits, l)
    case Got(r, left) => Got(r, Join(left, x))
    case Waits(_) =>
      var b := Join(bits, x);
      if Satisfied(b, l) then Got(Received(b, l), Cleared(b, l)) else Waits(b)
  }

  lemma SameWhenWoken(e: Bits, b: Bits)
    ensures Meet(e, b) == e ==> Meet(b, e) == e
    ensures Meet(b, e) == Meet(e, b) && Minus(b, Meet(e, b)) == Minus(b, e)
  {
  }

  lemma KeepAll(e: Bits, b: Bits, x: Bits)
    ensures e & b == e ==> e & (b | x) == e
  {
  }

  lemma KeepAny(e: Bits, b: Bits, x: Bits)
    ensures e & b != 0 ==> e & (b | x) != 0
  {
  }

  lemma StaysSatisfied(all: bool, any: bool, e: Bits, b: Bits, x: Bits)
    requires Holds(all, any, e, b)
    ensures Holds(all, any, e, Join(b, x))
  {
    KeepAll(e, b, x);
    KeepAny(e, b, x);
  }

  lemma SameGot(e: Bits, b: Bits, x: Bits)
    ensures Meet(b, e) == Meet(Join(b, x), e) ==> Minus(Meet(x, e), b) == 0
  {
  }

  lemma SameGotBack(e: Bits, b: Bits, x: Bits)
    ensures Minus(Meet(x, e), b) == 0 ==> Meet(b, e) == Meet(Join(b, x), e)
  {
  }

  lemma SameLeft(e: Bits, b: Bits, x: Bits)
    ensures Join(Minus(b, e), x) == Minus(Join(b, x), e) ==> Meet(x, e) == 0
  {
  }

  lemma Distributes(b: Bits, x: Bits, e: Bits)
    ensures Minus(Join(b, x), e) == Join(Minus(b, e), Minus(x, e))
  {
  }

  lemma MinusApart(x: Bits, e: Bits)
    requires Meet(x, e) == 0
    ensures Minus(x, e) == x
  {
  }

  lemma SameLeftBack(e: Bits, b: Bits, x: Bits)
    requires Meet(x, e) == 0
    ensures Join(Minus(b, e), x) == Minus(Join(b, x), e)
  {
    Distributes(b, x, e);
    MinusApart(x, e);
  }

  lemma CommuteWaiting(bits: Bits, l: Locals, x: Bits)
    requires !Satisfied(bits, l)
    ensures RecvThenSend(bits, l, x) == SendThenRecv(bits, l, x)
  {
    SameWhenWoken(l.eventSet, Join(bits, x));
  }

  lemma SameReceipt(e: Bits, b: Bits, x: Bits)
    ensures Meet(b, e) == Meet(Join(b, x), e) <==> Minus(Meet(x, e), b) == 0
  {
    SameGot(e, b, x);
    SameGotBack(e, b, x);
  }

  lemma SameRest(e: Bits, b: Bits, x: Bits)
    ensures Join(Minus(b, e), x) == Minus(Join(b, x), e) <==> Meet(x, e) == 0
  {
    SameLeft(e, b, x);
    if Meet(x, e) == 0 {
      SameLeftBack(e, b, x);
    }
  }

  /** What a satisfied receiver gets before the send and after it. */
  lemma BothReceive(bits: Bits, l: Locals, x: Bits)
    requires Satisfied(bits, l)
    ensures RecvThenSend(bits, l, x) ==
            Got(Meet(bits, l.eventSet), if l.info.clear then Join(Minus(bits, l.eventSet), x) else Join(bits, x))
    ensures SendThenRecv(bits, l, x) ==
            Got(Meet(Join(bits, x), l.eventSet),
                if l.info.clear then Minus(Join(bits, x), l.eventSet) else Join(bits, x))
  {
    StaysSatisfied(l.info.all, l.info.any, l.eventSet, bits, x);
  }

  lemma CommuteEarly(bits: Bits, l: Locals, x: Bits)
    requires Satisfied(bits, l)
    ensures RecvThenSend(bits, l, x) == SendThenRecv(bits, l, x) <==>
            Minus(Meet(x, l.eventSet), bits) == 0 && (l.info.clear ==> Meet(x, l.eventSet) == 0)
  {
    BothReceive(bits, l, x);
    SameReceipt(l.eventSet, bits, x);
    SameRest(l.eventSet, bits, x);
  }

  /** A receiver that has to wait is as well off as one that comes after the send; one that
      is satisfied at once is if and only if the send brings it nothing new and, when it
      clears, nothing it waits for at all. */
  lemma Commute(bits: Bits, l: Locals, x: Bits)
    ensures RecvThenSend(bits, l, x) == SendThenRecv(bits, l, x) <==>
            (Satisfied(bits, l) ==>
               Minus(Meet(x, l.eventSet), bits) == 0 && (l.info.clear ==> Meet(x, l.eventSet) == 0))
  {
    if Satisfied(bits, l) {
      CommuteEarly(bits, l, x);
    } else {
      CommuteWaiting(bits, l, x);
    }
  }

  /** So the order matters: bit 0 is set, a thread asks for bit 0 or 1, and bit 1 is sent. If
      it asks first it gets bit 0, otherwise both. */
  lemma OrderMatters()
    ensures var l := Locals(3, Info(false, true, false));
            RecvThenSend(1, l, 2) == Got(1, 3) && SendThenRecv(1, l, 2) == Got(3, 3)
  {
    assert Meet(3, 1) == 1 && Meet(1, 3) == 1 && Join(1, 2) == 3 && Meet(3, 3) == 3;
  }

  lemma SweepSingle(b: Bits, t: Thread, tasks: Tasks)
    requires t in tasks
    ensures Sweep(b, [t], tasks) ==
            if Satisfied(b, tasks[t].locals)
            then Swept(Cleared(b, tasks[t].locals), [], tasks[t := Woken(b, tasks[t])]) else Swept(b, [t], tasks)
  {
    assert [t][1..] == [];
  }

  /** With one waiter whose condition does not hold yet, the sweep of a send does to it what
      RecvThenSend says. */
  lemma SweepOfOne(bits: Bits, t: Thread, tasks: Tasks, x: Bits)
    requires t in tasks && !Satisfied(bits, tasks[t].locals)
    ensures var r := Sweep(Join(bits, x), [t], tasks);
            match RecvThenSend(bits, tasks[t].locals, x)
            case Got(received, left) =>
              && r.bits == left && r.wait == [] && t in r.tasks && r.tasks[t].locals.eventSet == received
              && r.tasks[t].at == Granted
            case Waits(left) => r.bits == left && r.wait == [t] && r.tasks == tasks
  {
    SweepSingle(Join(bits, x), t, tasks);
  }

  // The invariant

  datatype State = State(bits: Bits, wait: seq<Thread>, tasks: Tasks)

  ghost function Misinformed(tasks: Tasks): set<Thread> {
    set t | t in tasks && tasks[t].at == TakeBlocked && !(tasks[t].locals.info.all || tasks[t].locals.info.any)
  }

  /** The list holds exactly the blocked threads, once each; each waits for all or any of its
      bits; and no suspended waiter's condition holds. */
  ghost predicate Sound(s: State) {
    && Distinct(s.wait) && Elements(s.wait) == At(s.tasks, TakeBlocked)
    && Misinformed(s.tasks) == {} && Overdue(s.bits, s.wait, s.tasks) == {}
  }

  lemma {:induction false} SweepInformed(bits: Bits, wait: seq<Thread>, tasks: Tasks)
    requires Misinformed(tasks) == {}
    ensures Misinformed(Sweep(bits, wait, tasks).tasks) == {}
    decreases |wait|
  {
    if wait != [] {
      var t := wait[0];
      if t in tasks && Satisfied(bits, tasks[t].locals) {
        var tasks' := tasks[t := Woken(bits, tasks[t])];
        forall x | x in tasks' ensures x !in Misinformed(tasks') {
          assert x !in Misinformed(tasks);
        }
        SweepInformed(Cleared(bits, tasks[t].locals), wait[1..], tasks');
      } else {
        SweepInformed(bits, wait[1..], tasks);
      }
    }
  }

  lemma SweepKeeps(s: State, x: Bits)
    requires Sound(s)
    ensures var r := Sweep(Join(s.bits, x), s.wait, s.tasks); Sound(State(r.bits, r.wait, r.tasks))
  {
    var b := Join(s.bits, x);
    forall t | t in s.wait ensures t in s.tasks && s.tasks[t].at == TakeBlocked {
      assert t in Elements(s.wait);
    }
    SweepBlocked(b, s.wait, s.tasks);
    SweepLeavesNone(b, s.wait, s.tasks);
    SweepInformed(b, s.wait, s.tasks);
  }

  /** A thread that does not wait moves on, and bits r may get cleared. */
  lemma MoveKeeps(s: State, t: Thread, task: Task<Locals>, r: Bits, left: Bits)
    requires Sound(s) && t in s.tasks && s.tasks[t].at != TakeBlocked && task.at != TakeBlocked
    requires left == s.bits || left == Minus(s.bits, r)
    ensures Sound(State(left, s.wait, s.tasks[t := task]))
  {
    Stepped(s.tasks, t, task, TakeBlocked);
    var tasks := s.tasks[t := task];
    forall x | x in tasks ensures x !in Misinformed(tasks) {
      assert x !in Misinformed(s.tasks);
    }
    forall x | x in s.wait ensures x !in Overdue(left, s.wait, tasks) {
      assert x in Elements(s.wait) && x !in Overdue(s.bits, s.wait, s.tasks);
      var l := tasks[x].locals;
      Masked(l.info.all, l.info.any, l.eventSet, s.bits, r);
    }
  }

  lemma QueueKeeps(s: State, t: Thread, task: Task<Locals>, flag: Flag)
    requires Sound(s) && t in s.tasks && s.tasks[t].at != TakeBlocked && task.at == TakeBlocked
    requires !Satisfied(s.bits, task.locals) && (task.locals.info.all || task.locals.info.any)
    ensures Elements(s.wait) <= s.tasks.Keys
    ensures var tasks := s.tasks[t := task]; Sound(State(s.bits, Enqueued(s.wait, tasks, t, flag), tasks))
  {
    var tasks := s.tasks[t := task];
    assert t !in At(s.tasks, TakeBlocked) && t !in Elements(s.wait);
    Stepped(s.tasks, t, task, TakeBlocked);
    EnqueuedFacts(s.wait, tasks, t, flag);
    var wait := Enqueued(s.wait, tasks, t, flag);
    forall x | x in tasks ensures x !in Misinformed(tasks) {
      assert x !in Misinformed(s.tasks);
    }
    forall x | x in wait ensures x !in Overdue(s.bits, wait, tasks) {
      assert x in Elements(wait) && x !in Overdue(s.bits, s.wait, s.tasks);
    }
  }

  lemma ExpelKeeps(s: State, t: Thread, task: Task<Locals>)
    requires Sound(s) && t in s.tasks && s.tasks[t].at == TakeBlocked && task.at != TakeBlocked
    ensures Sound(State(s.bits, Without(s.wait, t), s.tasks[t := task]))
  {
    var tasks, wait := s.tasks[t := task], Without(s.wait, t);
    WithoutFacts(s.wait, t);
    Stepped(s.tasks, t, task, TakeBlocked);
    forall x | x in tasks ensures x !in Misinformed(tasks) {
      assert x !in Misinformed(s.tasks);
    }
    forall x | x in wait ensures x !in Overdue(s.bits, wait, tasks) {
      assert x in Elements(wait) && x in Elements(s.wait) && x !in Overdue(s.bits, s.wait, s.tasks);
    }
  }

  // Runs

  /** What may happen next: a send, a receive, a thread continuing its receive, a timeout, or a reset. */
  datatype Command =
    | Post(x: Bits)
    | Await(t: Thread, bits: Bits, info: Info, timeout: int)
    | Continue(t: Thread)
    | Expire(t: Thread)
    | Clear

  /** rt_event_send. */
  ghost function AfterSend(s: State, x: Bits): State {
    if x == 0 then s else var r := Sweep(Join(s.bits, x), s.wait, s.tasks); State(r.bits, r.wait, r.tasks)
  }

  /** rt_event_recv, up to the suspension. */
  ghost function AfterRecv(s: State, flag: Flag, t: Thread, bits: Bits, info: Info, timeout: int): State
    requires t in s.tasks
  {
    if bits == 0 then s
    else
      var l, task := Locals(bits, info), s.tasks[t].(error := EOK);
      match RecvAlone(s.bits, l)
      case Got(got, left) => State(left, s.wait, s.tasks[t := task.(locals := Locals(got, info))])
      case Waits(_) =>
        if timeout == 0 then State(s.bits, s.wait, s.tasks[t := task.(error := ETIMEOUT)])
        else
          var tasks := s.tasks[t := task.(at := TakeBlocked, timer := timeout > 0, locals := l)];
          State(s.bits, Enqueued(s.wait, tasks, t, flag), tasks)
  }

  lemma RecvKeeps(s: State, flag: Flag, t: Thread, bits: Bits, info: Info, timeout: int)
    requires Sound(s) && t in s.tasks && s.tasks[t].at == Idle && (info.all || info.any)
    ensures Sound(AfterRecv(s, flag, t, bits, info, timeout))
  {
    if bits != 0 {
      var l, task := Locals(bits, info), s.tasks[t].(error := EOK);
      match RecvAlone(s.bits, l) {
        case Got(got, left) => MoveKeeps(s, t, task.(locals := Locals(got, info)), bits, left);
        case Waits(_) =>
          if timeout == 0 {
            MoveKeeps(s, t, task.(error := ETIMEOUT), 0, s.bits);
          } else {
            QueueKeeps(s, t, task.(at := TakeBlocked, timer := timeout > 0, locals := l), flag);
          }
      }
    }
  }

  lemma {:induction false} ResetKeeps(s: State)
    requires Sound(s)
    ensures Sound(State(0, [], AllFailed(s.tasks, s.wait)))
    decreases |s.wait|
  {
    if s.wait == [] {
      assert AllFailed(s.tasks, s.wait) == s.tasks;
    } else {
      var t := s.wait[0];
      assert t in Elements(s.wait);
      var task := s.tasks[t].(at := Failed, timer := false, error := ERROR);
      ExpelKeeps(s, t, task);
      ResetKeeps(State(s.bits, s.wait[1..], s.tasks[t := task]));
    }
  }

  /** One step of some thread, if the thread is there for it; otherwise nothing. */
  ghost function Next(s: State, flag: Flag, c: Command): State {
    match c
    case Post(x) => AfterSend(s, x)
    case Await(t, bits, info, timeout) =>
      if t in s.tasks && s.tasks[t].at.Idle? && (info.all || info.any) then AfterRecv(s, flag, t, bits, info, timeout)
          else s
    case Continue(t) =>
      if t in s.tasks && s.tasks[t].at in {Granted, Failed} then s.(tasks := s.tasks[t := s.tasks[t].(at := Idle)])
          else s
    case Expire(t) =>
      if t in s.tasks && s.tasks[t].at.TakeBlocked? && s.tasks[t].timer then
        State(s.bits, Without(s.wait, t), s.tasks[t := s.tasks[t].(at := Failed, timer := false, error := ETIMEOUT)])
      else s
    case Clear => State(0, [], AllFailed(s.tasks, s.wait))
  }

  lemma NextKeeps(s: State, flag: Flag, c: Command)
    requires Sound(s)
    ensures Sound(Next(s, flag, c))
  {
    match c {
      case Post(x) => if x != 0 { SweepKeeps(s, x); }
      case Await(t, bits, info, timeout) =>
        if t in s.tasks && s.tasks[t].at.Idle? && (info.all || info.any) { RecvKeeps(s, flag, t, bits, info, timeout); }
      case Continue(t) =>
        if t in s.tasks && s.tasks[t].at in {Granted, Failed} { MoveKeeps(s, t, s.tasks[t].(at := Idle), 0, s.bits); }
      case Expire(t) =>
        if t in s.tasks && s.tasks[t].at.TakeBlocked? && s.tasks[t].timer {
          ExpelKeeps(s, t, s.tasks[t].(at := Failed, timer := false, error := ETIMEOUT));
        }
      case Clear => ResetKeeps(s);
    }
  }

  /** The state a run of steps leads to from a new event set (rt_event_init). */
  ghost function After(flag: Flag, tasks: Tasks, schedule: seq<Command>): State {
    if schedule == [] then State(0, [], tasks)
    else Next(After(flag, tasks, schedule[..|schedule| - 1]), flag, schedule[|schedule| - 1])
  }

  lemma FreshIsSound(tasks: Tasks)
    requires forall t :: t in tasks ==> tasks[t].at == Idle
    ensures Sound(State(0, [], tasks))
  {
    assert At(tasks, TakeBlocked) == {} && Misinformed(tasks) == {};
  }

  lemma {:induction false} AlwaysSound(flag: Flag, tasks: Tasks, schedule: seq<Command>)
    requires forall t :: t in tasks ==> tasks[t].at == Idle
    ensures Sound(After(flag, tasks, schedule))
  {
    if schedule == [] {
      FreshIsSound(tasks);
    } else {
      AlwaysSound(flag, tasks, schedule[..|schedule| - 1]);
      NextKeeps(After(flag, tasks, schedule[..|schedule| - 1]), flag, schedule[|schedule| - 1]);
    }
  }

  /** In every state any run leads to, no suspended thread's condition holds. */
  lemma NobodyOverdue(flag: Flag, tasks: Tasks, schedule: seq<Command>, t: Thread)
    requires forall t :: t in tasks ==> tasks[t].at == Idle
    ensures var s := After(flag, tasks, schedule);
            t in s.tasks && s.tasks[t].at == TakeBlocked <==> t in s.wait
    ensures var s := After(flag, tasks, schedule);
            t in s.wait ==> t in s.tasks && !Satisfied(s.bits, s.tasks[t].locals)
  {
    AlwaysSound(flag, tasks, schedule);
    var s := After(flag, tasks, schedule);
    assert t in s.wait <==> t in Elements(s.wait);
    assert t !in Overdue(s.bits, s.wait, s.tasks);
  }

  // What the callers asked for

  /** Every bit sent is set afterwards, and no other, but for bits that a woken thread received and
      cleared; zero is refused. */
  lemma SendAdds(s: State, x: Bits, m: Bits)
    requires Sound(s)
    ensures x == 0 ==> AfterSend(s, x) == s
    ensures var s' := AfterSend(s, x);
            x != 0 ==>
              && Minus(s'.bits, Join(s.bits, x)) == 0
              && (Meet(Join(s.bits, x), m) != 0 && Meet(s'.bits, m) == 0 ==>
                    exists t :: t in s.wait && t !in s'.wait && t in s.tasks && s.tasks[t].locals.info.clear
                                && t in s'.tasks && Meet(s'.tasks[t].locals.eventSet, m) != 0)
  {
    if x != 0 {
      var b, r := Join(s.bits, x), Sweep(Join(s.bits, x), s.wait, s.tasks);
      SweepWithin(b, s.wait, s.tasks);
      if Meet(b, m) != 0 && Meet(r.bits, m) == 0 {
        var t := SweepTakes(b, s.wait, s.tasks, m);
      }
    }
  }

  /** A receiver whose condition holds gets the bits it asked for that are set, and they are cleared
      if it says so; one that may not wait fails; and one that waits keeps what it asked for, with
      its timer armed if the timeout is not for ever. */
  lemma RecvIs(s: State, flag: Flag, t: Thread, bits: Bits, info: Info, timeout: int)
    requires Sound(s) && t in s.tasks && s.tasks[t].at == Idle
    ensures var s' := AfterRecv(s, flag, t, bits, info, timeout);
            if bits == 0 then s' == s
            else
              && t in s'.tasks && s'.tasks == s.tasks[t := s'.tasks[t]] && s'.tasks[t].priority == s.tasks[t].priority
              && if Holds(info.all, info.any, bits, s.bits) then
                   && s'.tasks[t].at == Idle && s'.tasks[t].locals == Locals(Meet(s.bits, bits), info)
                   && s'.wait == s.wait && s'.bits == if info.clear then Minus(s.bits, bits) else s.bits
                 else
                   && s'.bits == s.bits
                   && if timeout == 0 then s'.tasks[t].at == Idle && s'.tasks[t].error == ETIMEOUT && s'.wait == s.wait
                      else
                        && s'.tasks[t].at == TakeBlocked && s'.tasks[t].locals == Locals(bits, info)
                        && (s'.tasks[t].timer <==> timeout > 0) && s'.tasks[t].error == EOK
                        && t in s'.wait && Without(s'.wait, t) == s.wait && (flag.Fifo? ==> s'.wait == s.wait + [t])
  {
    assert t !in At(s.tasks, TakeBlocked) && t !in Elements(s.wait);
    if bits != 0 && !Satisfied(s.bits, Locals(bits, info)) && timeout != 0 {
      var tasks := AfterRecv(s, flag, t, bits, info, timeout).tasks;
      EnqueuedKeeps(s.wait, tasks, t, flag);
      EnqueuedFacts(s.wait, tasks, t, flag);
      assert t in Elements(Enqueued(s.wait, tasks, t, flag));
    }
  }

  /** Thread t, doing nothing, makes a call. */
  ghost predicate Calls(s: State, c: Command, t: Thread) {
    c.Await? && c.t == t && t in s.tasks && s.tasks[t].at == Idle && (c.info.all || c.info.any)
  }

  /** The call thread t made last; Clear if it made none. */
  ghost function LastCall(flag: Flag, tasks: Tasks, schedule: seq<Command>, t: Thread): Command {
    if schedule == [] then Clear
    else
      var front, c := schedule[..|schedule| - 1], schedule[|schedule| - 1];
      if Calls(After(flag, tasks, front), c, t) then c else LastCall(flag, tasks, front, t)
  }

  /** A suspended thread waits for what it was called with, one that is woken has got it, and one
      that fails is told why. */
  ghost predicate Carries(task: Task<Locals>, c: Command) {
    match task.at
    case TakeBlocked =>
      c.Await? && task.locals == Locals(c.bits, c.info) && (task.timer <==> c.timeout > 0)
    case Granted => c.Await? && Answers(task.locals.eventSet, Locals(c.bits, c.info))
    case Failed => task.error != EOK
    case _ => true
  }

  lemma SendCarries(s: State, x: Bits, t: Thread, c: Command)
    requires Sound(s) && t in s.tasks && Carries(s.tasks[t], c)
    ensures t in AfterSend(s, x).tasks && Carries(AfterSend(s, x).tasks[t], c)
  {
    if x != 0 {
      var b := Join(s.bits, x);
      if t in s.wait {
        assert t in Elements(s.wait);
        SweepGives(b, s.wait, s.tasks, t);
      } else {
        SweepFrame(b, s.wait, s.tasks, t);
      }
    }
  }

  lemma RecvCarries(s: State, flag: Flag, c: Command, t: Thread, call: Command)
    requires Sound(s) && t in s.tasks && Carries(s.tasks[t], call) && c.Await? && Calls(s, c, c.t)
    ensures var s' := Next(s, flag, c); t in s'.tasks && Carries(s'.tasks[t], if c.t == t then c else call)
  {
    RecvIs(s, flag, c.t, c.bits, c.info, c.timeout);
  }

  lemma StepCarries(s: State, flag: Flag, c: Command, t: Thread, call: Command)
    requires Sound(s) && t in s.tasks && Carries(s.tasks[t], call)
    ensures var s' := Next(s, flag, c); t in s'.tasks && Carries(s'.tasks[t], if Calls(s, c, t) then c else call)
  {
    match c {
      case Post(x) => SendCarries(s, x, t, call);
      case Await(u, bits, info, timeout) =>
        if Calls(s, c, u) {
          RecvCarries(s, flag, c, t, call);
        }
      case Clear => AllFailedIs(s.tasks, s.wait, t);
      case Continue(_) =>
      case Expire(_) =>
    }
  }

  /** In every run a suspended receiver waits for the bits of the call it made last, and a woken one
      has got all of them or some, as it asked. */
  lemma {:induction false} CallsAnswered(flag: Flag, tasks: Tasks, schedule: seq<Command>, t: Thread)
    requires (forall x :: x in tasks ==> tasks[x].at == Idle) && t in tasks
    ensures var s := After(flag, tasks, schedule);
            t in s.tasks && Carries(s.tasks[t], LastCall(flag, tasks, schedule, t))
  {
    if schedule != [] {
      var front := schedule[..|schedule| - 1];
      CallsAnswered(flag, tasks, front, t);
      AlwaysSound(flag, tasks, front);
      StepCarries(After(flag, tasks, front), flag, schedule[|schedule| - 1], t, LastCall(flag, tasks, front, t));
    }
  }

  // The event set

  lemma WaitingFrom(wait: seq<Thread>, n: nat, tasks: Tasks)
    requires n < |wait| && Distinct(wait[n..]) && Elements(wait[n..]) <= At(tasks, TakeBlocked)
    requires Misinformed(tasks) == {}
    ensures wait[n] in tasks && (tasks[wait[n]].locals.info.all || tasks[wait[n]].locals.info.any)
    ensures Distinct(wait[n + 1..]) && Elements(wait[n + 1..]) <= At(tasks, TakeBlocked)
    ensures wait[n] !in Elements(wait[n + 1..])
  {
    assert wait[n..][0] == wait[n] && wait[n..][1..] == wait[n + 1..];
    HeadFacts(wait[n..]);
    assert wait[n] !in Misinformed(tasks);
  }

  lemma SweepPast(bits: Bits, wait: seq<Thread>, n: nat, tasks: Tasks, goal: Swept)
    requires n < |wait| && wait[n] in tasks && !Satisfied(bits, tasks[wait[n]].locals)
    requires var r := Sweep(bits, wait[n..], tasks); goal == Swept(r.bits, wait[..n] + r.wait, r.tasks)
    ensures var r := Sweep(bits, wait[n + 1..], tasks); goal == Swept(r.bits, wait[..n + 1] + r.wait, r.tasks)
  {
    SweepFrom(bits, wait, n, tasks);
    var r := Sweep(bits, wait[n + 1..], tasks);
    assert wait[..n] + ([wait[n]] + r.wait) == wait[..n + 1] + r.wait;
  }

  class Event {
    const flag: Flag
    var bits: Bits
    var wait: seq<Thread>
    var tasks: Tasks

    ghost function Now(): State
      reads this
    {
      State(bits, wait, tasks)
    }

    ghost predicate Valid()
      reads this
    {
      Sound(Now())
    }

    /** rt_event_init. */
    constructor (flag: Flag, tasks: Tasks)
      requires forall t :: t in tasks ==> tasks[t].at == Idle
      ensures Valid() && Now() == State(0, [], tasks) && this.flag == flag
    {
      this.flag := flag;
      this.tasks := tasks;
      bits, wait := 0, [];
      new;
      FreshIsSound(tasks);
    }

    /** rt_event_send. */
    method Send(x: Bits) returns (r: Code)
      requires Valid()
      modifies this
      ensures Valid() && r == if x == 0 then ERROR else EOK
      ensures Now() == AfterSend(old(Now()), x)
    {
      if x == 0 {
        return ERROR;
      }
      SweepKeeps(Now(), x);
      bits := Join(bits, x);
      WakeSatisfied(Sweep(bits, wait, tasks));
      r := EOK;
    }

    /** The traversal of the list of suspended threads. */
    method WakeSatisfied(ghost goal: Swept)
      requires Elements(wait) == At(tasks, TakeBlocked) && Misinformed(tasks) == {} && Distinct(wait)
      requires goal == Sweep(bits, wait, tasks)
      modifies this
      ensures Swept(bits, wait, tasks) == goal
    {
      var n := 0;
      while n < |wait|
        invariant n <= |wait| && Misinformed(tasks) == {} && Elements(wait[n..]) <= At(tasks, TakeBlocked)
        invariant Distinct(wait[n..])
        invariant var r := Sweep(bits, wait[n..], tasks); goal == Swept(r.bits, wait[..n] + r.wait, r.tasks)
        decreases |wait| - n
      {
        WaitingFrom(wait, n, tasks);
        var thread := wait[n];
        var l := tasks[thread].locals;
        if Satisfied(bits, l) {
          SweepFrom(bits, wait, n, tasks);
          Resume(thread, n);
        } else {
          SweepPast(bits, wait, n, tasks, goal);
          n := n + 1;
        }
      }
      assert wait[..n] == wait;
    }

    /** One satisfied waiter leaves the list with the bits it receives. */
    method Resume(thread: Thread, n: nat)
      requires n < |wait| && wait[n] == thread && thread in tasks && Misinformed(tasks) == {}
      requires thread !in Elements(wait[n + 1..]) && Elements(wait[n + 1..]) <= At(tasks, TakeBlocked)
      modifies this
      ensures bits == Cleared(old(bits), old(tasks)[thread].locals)
      ensures tasks == old(tasks)[thread := Woken(old(bits), old(tasks)[thread])]
      ensures |wait| == |old(wait)| - 1 && wait[..n] == old(wait)[..n] && wait[n..] == old(wait)[n + 1..]
      ensures Misinformed(tasks) == {} && Elements(wait[n..]) <= At(tasks, TakeBlocked)
    {
      ghost var was := tasks;
      var l := tasks[thread].locals;
      var received := if l.info.all then l.eventSet else Meet(l.eventSet, bits);
      Stepped(tasks, thread, Woken(bits, tasks[thread]), TakeBlocked);
      tasks := tasks[thread := tasks[thread].(at := Granted, timer := false, locals := l.(eventSet := received))];
      if l.info.clear {
        bits := Minus(bits, received);
      }
      wait := wait[..n] + wait[n + 1..];
      forall x | x in tasks ensures x !in Misinformed(tasks) {
        assert x !in Misinformed(was);
      }
    }

    /** rt_event_recv, up to the suspension. */
    method Recv(t: Thread, set_: Bits, info: Info, timeout: int) returns (r: Outcome, received: Bits)
      requires Valid() && t in tasks && tasks[t].at == Idle && (set_ == 0 || info.all || info.any)
      modifies this
      ensures Valid()
      ensures Now() == AfterRecv(old(Now()), flag, t, set_, info, timeout)
      ensures if set_ == 0 then r == Returned(ERROR)
              else match RecvAlone(old(bits), Locals(set_, info))
                case Got(got, _) => r == Returned(EOK) && received == got
                case Waits(_) => r == if timeout == 0 then Returned(ETIMEOUT) else Suspended
    {
      received := 0;
      if set_ == 0 {
        return Returned(ERROR), received;
      }
      var l := Locals(set_, info);
      if Satisfied(bits, l) {
        received := Receive(t, l, timeout);
        return Returned(EOK), received;
      }
      if timeout == 0 {
        Refuse(t, l);
        return Returned(ETIMEOUT), received;
      }
      Queue(t, l, timeout);
      r := Suspended;
    }

    /** The branch of rt_event_recv that finds its condition satisfied. */
    method Receive(t: Thread, l: Locals, ghost timeout: int) returns (received: Bits)
      requires Valid() && t in tasks && tasks[t].at == Idle && l.eventSet != 0 && Satisfied(bits, l)
      modifies this`bits, this`tasks
      ensures Valid() && received == Meet(old(bits), l.eventSet)
      ensures Now() == AfterRecv(old(Now()), flag, t, l.eventSet, l.info, timeout)
    {
      RecvKeeps(Now(), flag, t, l.eventSet, l.info, timeout);
      received := Meet(bits, l.eventSet);
      tasks := tasks[t := tasks[t].(error := EOK, locals := Locals(received, l.info))];
      if l.info.clear {
        bits := Minus(bits, l.eventSet);
      }
    }

    /** The branch that does not wait. */
    method Refuse(t: Thread, l: Locals)
      requires Valid() && t in tasks && tasks[t].at == Idle && l.eventSet != 0 && !Satisfied(bits, l)
      requires l.info.all || l.info.any
      modifies this`tasks
      ensures Valid() && Now() == AfterRecv(old(Now()), flag, t, l.eventSet, l.info, 0)
    {
      RecvKeeps(Now(), flag, t, l.eventSet, l.info, 0);
      tasks := tasks[t := tasks[t].(error := ETIMEOUT)];
    }

    /** The branch that suspends. */
    method Queue(t: Thread, l: Locals, timeout: int)
      requires Valid() && t in tasks && tasks[t].at == Idle && l.eventSet != 0 && !Satisfied(bits, l)
      requires (l.info.all || l.info.any) && timeout != 0
      modifies this`wait, this`tasks
      ensures Valid() && Now() == AfterRecv(old(Now()), flag, t, l.eventSet, l.info, timeout)
    {
      RecvKeeps(Now(), flag, t, l.eventSet, l.info, timeout);
      tasks := tasks[t := tasks[t].(error := EOK, at := TakeBlocked, timer := timeout > 0, locals := l)];
      wait := Suspend(wait, tasks, t, flag);
    }

    /** A receiver resumed by a send returns what it received. */
    method Finish(t: Thread) returns (r: Outcome, received: Bits)
      requires Valid() && t in tasks && tasks[t].at == Granted
      modifies this`tasks
      ensures Valid() && r == Returned(EOK) && received == old(tasks)[t].locals.eventSet
      ensures tasks == old(tasks)[t := old(tasks)[t].(at := Idle)]
    {
      received := tasks[t].locals.eventSet;
      MoveKeeps(Now(), t, tasks[t].(at := Idle), 0, bits);
      tasks := tasks[t := tasks[t].(at := Idle)];
      r := Returned(EOK);
    }

    /** A thread resumed with an error number returns it. */
    method Fail(t: Thread) returns (r: Outcome)
      requires Valid() && t in tasks && tasks[t].at == Failed
      modifies this`tasks
      ensures Valid() && r == Returned(old(tasks)[t].error) && tasks == old(tasks)[t := old(tasks)[t].(at := Idle)]
    {
      r := Returned(tasks[t].error);
      MoveKeeps(Now(), t, tasks[t].(at := Idle), 0, bits);
      tasks := tasks[t := tasks[t].(at := Idle)];
    }

    /** A suspended thread's timer fires (rt_thread_timeout). */
    method Timeout(t: Thread)
      requires Valid() && t in tasks && tasks[t].at == TakeBlocked && tasks[t].timer
      modifies this`tasks, this`wait
      ensures Valid() && wait == Without(old(wait), t)
      ensures tasks == old(tasks)[t := old(tasks)[t].(at := Failed, timer := false, error := ETIMEOUT)]
    {
      var task := tasks[t].(at := Failed, timer := false, error := ETIMEOUT);
      ExpelKeeps(Now(), t, task);
      tasks, wait := tasks[t := task], Without(wait, t);
    }

    /** rt_event_control with the reset command. */
    method Reset()
      requires Valid()
      modifies this
      ensures Valid() && Now() == State(0, [], AllFailed(old(tasks), old(wait)))
    {
      while wait != []
        invariant Valid() && AllFailed(tasks, wait) == AllFailed(old(tasks), old(wait))
        decreases |wait|
      {
        var t := wait[0];
        assert t in Elements(wait);
        var task := tasks[t].(at := Failed, timer := false, error := ERROR);
        ExpelKeeps(Now(), t, task);
        tasks, wait := tasks[t := task], wait[1..];
      }
      bits := 0;
    }

    /** One step of some thread, if the thread is there; otherwise nothing. */
    method Perform(c: Command)
      requires Valid()
      modifies this
      ensures Valid() && Now() == Next(old(Now()), flag, c)
    {
      match c {
        case Clear => Reset();
        case Post(x) => var r := Send(x);
        case Await(t, set_, info, timeout) =>
          if t in tasks && tasks[t].at.Idle? && (info.all || info.any) {
            var r, received := Recv(t, set_, info, timeout);
          }
        case Expire(t) => if t in tasks && tasks[t].at.TakeBlocked? && tasks[t].timer { Timeout(t); }
        case Continue(t) =>
          if t in tasks && tasks[t].at.Granted? {
            var r, received := Finish(t);
          } else if t in tasks && tasks[t].at.Failed? {
            var r := Fail(t);
          }
      }
    }
  }

  /** Every interleaving: whatever the threads do, no suspended thread's condition holds. */
  method Run(flag: Flag, tasks: Tasks, schedule: seq<Command>) returns (e: Event)
    requires forall t :: t in tasks ==> tasks[t].at == Idle
    ensures e.Valid() && e.Now() == After(flag, tasks, schedule)
    ensures forall t :: t in e.wait ==>
            t in e.tasks && e.tasks[t].at == TakeBlocked && !Satisfied(e.bits, e.tasks[t].locals)
  {
    e := new Event(flag, tasks);
    for i := 0 to |schedule|
      invariant e.Valid() && fresh(e) && e.flag == flag && e.Now() == After(flag, tasks, schedule[..i])
    {
      assert schedule[..i + 1][..i] == schedule[..i];
      e.Perform(schedule[i]);
    }
    assert schedule[..|schedule|] == schedule;
    forall t | t in e.wait ensures t in e.tasks && e.tasks[t].at == TakeBlocked
        && !Satisfied(e.bits, e.tasks[t].locals) {
      NobodyOverdue(flag, tasks, schedule, t);
    }
  }
}
