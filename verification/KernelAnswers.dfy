/** What a task reads when its call has returned, told from the kernel before the round. */
module KernelAnswers {
  import opened KernelModel
  import opened KernelInvariant
  import opened KernelRuns

  /** Task x has been answered this way and is ready to run again. */
  ghost predicate Answered(b: Kernel, x: int, result: Outcome) {
    Sized(b) && 0 <= x < TASKS && b.tasks[x].state.Ready? && b.tasks[x].result == result
  }

  /** The task that runs next, seen before it is dispatched. */
  ghost predicate RunsNow(a: Kernel, x: int) {
    CanDispatch(a) && x == a.lists[TopPriority(a.lists, PRIORITIES - 1)][0]
  }

  lemma Runner(a: Kernel, req: Request, b: Kernel, x: int)
    requires Succeeds(a, req, b) && RunsNow(a, x)
    ensures
      var d := Dispatch(a);
      && Running(d) && d.active == x && Sized(a) && 0 <= x < a.nextFree && a.tasks[x].state.Ready?
      && d.tasks == a.tasks[x := a.tasks[x].(state := Active)] && d.slots == a.slots && d.ticks == a.ticks
      && d.nextFree == a.nextFree && d.issued == a.issued && d.active == x
      && CanHandle(d, req) && b == Handle(d, req) && Admissible(d, req)
      && (forall tid :: Alive(d, tid) <==> Alive(a, tid))
  {
    DispatchInv(a);
    DispatchPlaced(a);
    HandleInv(Dispatch(a), req);
  }

  /** A task that asks for its id gets its own. */
  lemma OwnId(a: Kernel, b: Kernel, x: int)
    requires Succeeds(a, MyTid, b) && RunsNow(a, x)
    ensures 0 <= x < TASKS && Sized(a) && Answered(b, x, Value(a.tasks[x].id))
  {
    hide Inv, RunsNow, Alive;
    Runner(a, MyTid, b, x);
  }

  /** A task that asks for its parent's id gets what is in its parent's descriptor now, and
      the first task, which has no parent, gets -1. */
  lemma ParentsId(a: Kernel, b: Kernel, x: int)
    requires Succeeds(a, MyParentTid, b) && RunsNow(a, x)
    ensures 0 <= x < TASKS && Sized(a)
    ensures
      var p := a.tasks[x].parent;
      Answered(b, x, Value(if 0 <= p < TASKS then a.tasks[p].id else -1))
  {
    hide Inv, RunsNow, Alive;
    Runner(a, MyParentTid, b, x);
  }

  /** Who creates a task gets its id; the new task is ready, alive, and has it as parent. */
  lemma CreatedId(a: Kernel, prio: int, b: Kernel, x: int)
    requires Succeeds(a, Create(prio), b) && RunsNow(a, x)
    ensures prio < 0 || prio >= 32 ==> Answered(b, x, Value(-1))
    ensures 0 <= prio < 32 ==>
      && |b.issued| == |a.issued| + 1
      && var id := b.issued[|a.issued|];
      && id !in a.issued && Answered(b, x, Value(id)) && Alive(b, id)
      && b.tasks[id % TASKS].parent == x && b.tasks[id % TASKS].priority == prio
      && b.tasks[id % TASKS].state.Ready? && id % TASKS != x
  {
    hide Placed, Letters, Slots, RunsNow, Alive;
    Runner(a, Create(prio), b, x);
    var d := Dispatch(a);
    CreateMoves(d, prio);
    CreatorReady(d, prio);
    if IsPriority(prio) {
      NewestId(d, prio);
    }
  }

  lemma CreatorReady(d: Kernel, prio: int)
    requires Running(d) && CanHandle(d, Create(prio))
    ensures CreateTask(d, prio).tasks[d.active].state.Ready?
    ensures !IsPriority(prio) ==> CreateTask(d, prio).tasks[d.active].result == Value(-1)
  {
    hide Inv;
  }

  lemma NewestId(d: Kernel, prio: int)
    requires Running(d) && IsPriority(prio) && CanCreate(d)
    ensures CanHandle(d, Create(prio))
    ensures
      var b, t := CreateTask(d, prio), NewTask(d, prio).1;
      Inv(b, {}) && t < b.nextFree && b.tasks[t].id % TASKS == t
  {
    hide Placed, Letters, Slots, Requests;
    CreateInv(d, prio);
    NewTaskInv(d, prio);
    assert IdOk(CreateTask(d, prio), NewTask(d, prio).1);
  }

  /** Where a new task comes from: while part of the array was never used, the next of it, with
      its index as id; after that the first of the free list, with the id it got at its exit. */
  lemma CreatedWhere(a: Kernel, prio: int, b: Kernel, x: int)
    requires Succeeds(a, Create(prio), b) && RunsNow(a, x) && 0 <= prio < 32
    ensures Sized(a) && |b.issued| > 0 && |b.lists| == |a.lists| == LISTS
    ensures
      var id := b.issued[|b.issued| - 1];
      if a.nextFree < TASKS then id == a.nextFree && b.nextFree == a.nextFree + 1 && b.lists[FREE] == a.lists[FREE]
      else
        && a.lists[FREE] != [] && 0 <= a.lists[FREE][0] < TASKS && id == a.tasks[a.lists[FREE][0]].id
        && b.nextFree == a.nextFree && b.lists[FREE] == a.lists[FREE][1..]
  {
    hide Placed, Letters, Slots, Requests, RunsNow, Alive;
    Runner(a, Create(prio), b, x);
    RunnerLists(a, x);
    FreeIsOther(Dispatch(a), prio);
  }

  lemma FreeIsOther(d: Kernel, prio: int)
    requires Running(d) && CanHandle(d, Create(prio)) && IsPriority(prio)
    ensures
      var b := CreateTask(d, prio);
      && |d.lists| == |b.lists| == LISTS && |b.issued| > 0
      && var id := b.issued[|b.issued| - 1];
      && if d.nextFree < TASKS then id == d.nextFree && b.nextFree == d.nextFree + 1 && b.lists[FREE] == d.lists[FREE]
         else
           && d.lists[FREE] != [] && 0 <= d.lists[FREE][0] < TASKS && id == d.tasks[d.lists[FREE][0]].id
           && b.nextFree == d.nextFree && b.lists[FREE] == d.lists[FREE][1..]
  {
    hide Inv;
  }

  /** A task that exits is a zombie.  Its id grows by one generation and its descriptor is the
      next to be reused, unless the id is one of the last: then it is not used again. */
  lemma ExitFrees(a: Kernel, b: Kernel, x: int)
    requires Succeeds(a, Exit, b) && RunsNow(a, x)
    ensures Sized(a) && Sized(b) && 0 <= x < TASKS && b.tasks[x].state.Zombie? && b.lists[SenderQ(x)] == []
    ensures
      var id := a.tasks[x].id;
      if id + 256 <= 0x7fff_ffff then b.tasks[x].id == id + 256 && b.lists[FREE] == [x] + a.lists[FREE]
      else b.tasks[x].id == id && b.lists[FREE] == a.lists[FREE]
    ensures forall y :: 0 <= y < TASKS && y != x ==> b.tasks[y] == a.tasks[y]
  {
    hide Placed, Letters, Slots, Requests, RunsNow, Alive;
    Runner(a, Exit, b, x);
    RunnerLists(a, x);
    DispatchInv(a);
    assert IdOk(Dispatch(a), x);
  }

  /** A send to no task is refused: -1 for an id that cannot be one, -2 for a dead one. */
  lemma SendRefusals(a: Kernel, tid: int, msg: seq<char>, replyCap: nat, b: Kernel, x: int)
    requires Succeeds(a, Send(tid, msg, replyCap), b) && RunsNow(a, x)
    ensures tid < 0 ==> Answered(b, x, Value(-1))
    ensures tid >= 0 && !Alive(a, tid) ==> Answered(b, x, Value(-2))
    ensures Alive(a, tid) ==>
      && Sized(b) && 0 <= x < TASKS && (b.tasks[x].state.RecvBlocked? || b.tasks[x].state.ReplBlocked?)
      && b.tasks[x].req == Some(Send(tid, msg, replyCap))
  {
    hide Inv, RunsNow;
    Runner(a, Send(tid, msg, replyCap), b, x);
  }

  /** A replier gets 0 exactly when its reply was given; else -1, -2 or -3 for an id that
      cannot be one, a dead one, and a task that waits for no reply. */
  lemma ReplyAnswers(a: Kernel, tid: int, reply: seq<char>, b: Kernel, x: int)
    requires Succeeds(a, Reply(tid, reply), b) && RunsNow(a, x)
    ensures Sized(a)
    ensures Answered(b, x, Value(
      if tid < 0 then -1
      else if !Alive(a, tid) then -2
      else if !a.tasks[tid % TASKS].state.ReplBlocked? then -3
      else 0))
  {
    hide Inv, RunsNow, Alive;
    Runner(a, Reply(tid, reply), b, x);
  }

  /** Waiting for an event that is none, or for one that is waited for already. */
  lemma AwaitAnswers(a: Kernel, e: int, b: Kernel, x: int)
    requires Succeeds(a, Request.AwaitEvent(e), b) && RunsNow(a, x)
    ensures Sized(a) && Sized(b) && 0 <= x < TASKS
    ensures e < 0 || e >= EVENTS ==> Answered(b, x, Value(-1))
    ensures 0 <= e < EVENTS && a.slots[e] != NULL ==> Answered(b, x, Value(-4))
    ensures 0 <= e < EVENTS && a.slots[e] == NULL ==>
      var buffer := if e == CLOCK_TICK then a.ticks else if e == UART2_RECEIVE_READY then a.keys else [];
      var n := if |buffer| < 15 then |buffer| else 15;
      if buffer == [] then b.slots[e] == x && b.tasks[x].state.Active? && b.ticks == a.ticks && b.keys == a.keys
      else
        && Answered(b, x, Event(buffer[..n])) && b.slots[e] == NULL
        && b.ticks == (if e == CLOCK_TICK then buffer[n..] else a.ticks)
        && b.keys == (if e == UART2_RECEIVE_READY then buffer[n..] else a.keys)
  {
    hide Inv, RunsNow, Alive;
    Runner(a, Request.AwaitEvent(e), b, x);
    assert Dispatch(a).keys == a.keys;
  }

  /** A receive that finds a letter returns the first one, cut to the room offered. */
  lemma ReceiveAnswers(a: Kernel, cap: nat, b: Kernel, x: int)
    requires Succeeds(a, Receive(cap), b) && RunsNow(a, x)
    ensures Sized(a) && Sized(b) && 0 <= x < TASKS
    ensures
      var q := a.lists[SenderQ(x)];
      if q == [] then b.tasks[x].state.SendBlocked? && b.tasks[x].req == Some(Receive(cap))
      else
        var s := q[0];
        && 0 <= s < TASKS && a.tasks[s].req.Some? && a.tasks[s].req.value.Send?
        && var msg := a.tasks[s].req.value.msg;
        && var n := if |msg| < cap then |msg| else cap;
        && Answered(b, x, Received(a.tasks[s].id, msg[..n], n))
        && b.tasks[s].state.ReplBlocked?
  {
    hide Placed, Letters, Slots, Ids, RunsNow, Alive;
    Runner(a, Receive(cap), b, x);
    var d := Dispatch(a);
    if d.lists[SenderQ(x)] != [] {
      HeadSender(d);
    }
  }

  /** A call with a number that the kernel does not know only gives way to others. */
  lemma PassAnswers(a: Kernel, b: Kernel, x: int)
    requires Succeeds(a, Unknown, b) && RunsNow(a, x)
    ensures 0 <= x < TASKS && Sized(a) && Answered(b, x, NoSuchCall)
    ensures forall y :: 0 <= y < TASKS && y != x ==> b.tasks[y] == a.tasks[y]
  {
    hide Inv, RunsNow, Alive;
    Runner(a, Unknown, b, x);
  }

  /** Whom a reply reaches: the task waits no more and has the reply, cut to its room. */
  lemma ReplyReaches(a: Kernel, tid: int, reply: seq<char>, b: Kernel)
    requires Succeeds(a, Reply(tid, reply), b) && Alive(a, tid) && a.tasks[tid % TASKS].state.ReplBlocked?
    ensures
      var t := a.tasks[tid % TASKS];
      && t.req.Some? && t.req.value.Send?
      && var room := t.req.value.replyCap;
      && Answered(b, tid % TASKS, Replied(|reply|, if |reply| < room then reply else reply[..room]))
  {
    OnlyReplyUnblocks(a, Reply(tid, reply), b, tid % TASKS);
  }

  // ---------- In which order tasks become ready ----------

  /** The ready queues once these tasks have been appended, one after the other. */
  ghost function Appended(lists: seq<seq<int>>, tasks: seq<Task>, ts: seq<int>): (r: seq<seq<int>>)
    ensures |r| == |lists|
    decreases |ts|
  {
    if ts == [] then lists
    else
      var t := ts[0];
      var p := if 0 <= t < |tasks| then tasks[t].priority else -1;
      Appended(if 0 <= p < |lists| then lists[p := lists[p] + [t]] else lists, tasks, ts[1..])
  }

  /** The ready queues of b are those of a without the task that ran, and then these tasks. */
  ghost predicate Readied(a: Kernel, b: Kernel, ts: seq<int>) {
    && Sized(a) && Sized(b)
    && var p := TopPriority(a.lists, PRIORITIES - 1);
      && 0 <= p < PRIORITIES && a.lists[p] != []
      && forall i :: 0 <= i < PRIORITIES ==>
          b.lists[i] == Appended(a.lists[p := a.lists[p][1..]], b.tasks, ts)[i]
  }

  lemma OneAppended(lists: seq<seq<int>>, tasks: seq<Task>, t: int)
    requires 0 <= t < |tasks| && 0 <= tasks[t].priority < |lists|
    ensures Appended(lists, tasks, [t]) == lists[tasks[t].priority := lists[tasks[t].priority] + [t]]
  {
    assert [t][1..] == [];
  }

  lemma TwoAppended(lists: seq<seq<int>>, tasks: seq<Task>, t: int, u: int)
    requires 0 <= t < |tasks| && 0 <= tasks[t].priority < |lists|
    ensures Appended(lists, tasks, [t, u]) ==
      Appended(lists[tasks[t].priority := lists[tasks[t].priority] + [t]], tasks, [u])
  {
    assert [t, u][1..] == [u];
  }

  /** A task that is answered goes to the back of its own queue. */
  lemma AnsweredLast(a: Kernel, req: Request, b: Kernel, x: int)
    requires Succeeds(a, req, b) && RunsNow(a, x)
    requires req.MyTid? || req.MyParentTid? || req.Unknown? || (req.Create? && !IsPriority(req.prio))
    ensures Readied(a, b, [x])
  {
    hide Inv, RunsNow, Alive;
    Runner(a, req, b, x);
    RunnerLists(a, x);
    OneAppended(Dispatch(a).lists, b.tasks, x);
  }

  lemma RunnerLists(a: Kernel, x: int)
    requires CanDispatch(a) && RunsNow(a, x)
    ensures
      var p := TopPriority(a.lists, PRIORITIES - 1);
      && 0 <= p < PRIORITIES && a.lists[p] != [] && Dispatch(a).lists == a.lists[p := a.lists[p][1..]]
  {
  }

  /** A new task is ready before the one that made it. */
  lemma CreatedFirst(a: Kernel, prio: int, b: Kernel, x: int)
    requires Succeeds(a, Create(prio), b) && RunsNow(a, x) && IsPriority(prio)
    ensures b.issued != [] && Readied(a, b, [b.issued[|b.issued| - 1] % TASKS, x])
  {
    hide Placed, Letters, Slots, RunsNow, Alive;
    Runner(a, Create(prio), b, x);
    RunnerLists(a, x);
    var d := Dispatch(a);
    NewestId(d, prio);
    CreateMoves(d, prio);
    CreateLists(d, prio);
    var t := NewTask(d, prio).1;
    TwoAppended(d.lists, b.tasks, t, x);
    OneAppended(d.lists[prio := d.lists[prio] + [t]], b.tasks, x);
  }

  lemma CreateLists(d: Kernel, prio: int)
    requires Running(d) && IsPriority(prio) && CanCreate(d)
    ensures CanHandle(d, Create(prio))
    ensures
      var b, t, x := CreateTask(d, prio), NewTask(d, prio).1, d.active;
      var p := d.tasks[x].priority;
      var lists := d.lists[prio := d.lists[prio] + [t]];
      && 0 <= p < PRIORITIES && b.tasks[x].priority == p
      && forall i :: 0 <= i < PRIORITIES ==> b.lists[i] == lists[p := lists[p] + [x]][i]
  {
    hide Placed, Letters, Slots, Ids;
    CreateInv(d, prio);
  }

  /** The task that gets a reply is ready before the one that gave it. */
  lemma RepliedFirst(a: Kernel, tid: int, reply: seq<char>, b: Kernel, x: int)
    requires Succeeds(a, Reply(tid, reply), b) && RunsNow(a, x)
    ensures Sized(a) && (ReplyTarget(a, tid) ==> Readied(a, b, [tid % TASKS, x]))
  {
    hide Inv, RunsNow, Alive, ReplyTo;
    Runner(a, Reply(tid, reply), b, x);
    RunnerLists(a, x);
    var d := Dispatch(a);
    if ReplyTarget(a, tid) {
      var s := tid % TASKS;
      ReplyLists(d, tid, reply);
      TwoAppended(d.lists, b.tasks, s, x);
      OneAppended(d.lists[b.tasks[s].priority := d.lists[b.tasks[s].priority] + [s]], b.tasks, x);
    }
  }

  lemma ReplyLists(d: Kernel, tid: int, reply: seq<char>)
    requires Running(d) && CanReply(d, tid) && ReplyTarget(d, tid)
    ensures
      var b, s, x := ReplyTo(d, tid, reply), tid % TASKS, d.active;
      var p, r := b.tasks[s].priority, b.tasks[x].priority;
      && 0 <= p < PRIORITIES && 0 <= r < PRIORITIES
      && var lists := d.lists[p := d.lists[p] + [s]];
        b.lists == lists[r := lists[r] + [x]]
  {
    hide Inv;
  }

  /** A refused replier goes to the back of its queue. */
  lemma RefusedLast(a: Kernel, tid: int, reply: seq<char>, b: Kernel, x: int)
    requires Succeeds(a, Reply(tid, reply), b) && RunsNow(a, x)
    ensures Sized(a) && (!ReplyTarget(a, tid) ==> Readied(a, b, [x]))
  {
    hide Inv, RunsNow, Alive;
    Runner(a, Reply(tid, reply), b, x);
    RunnerLists(a, x);
    OneAppended(Dispatch(a).lists, b.tasks, x);
  }

  /** A task that receives a letter is ready again; one that finds none is not. */
  lemma ReceiverReady(a: Kernel, cap: nat, b: Kernel, x: int)
    requires Succeeds(a, Receive(cap), b) && RunsNow(a, x)
    ensures Sized(a) && 0 <= x < TASKS
    ensures Readied(a, b, if a.lists[SenderQ(x)] == [] then [] else [x])
  {
    hide Placed, Letters, Slots, Ids, RunsNow, Alive;
    Runner(a, Receive(cap), b, x);
    RunnerLists(a, x);
    var d := Dispatch(a);
    OneAppended(d.lists, b.tasks, x);
    if d.lists[SenderQ(x)] != [] { HeadSender(d); }
  }

  /** A send makes ready the receiver that waits, or the sender if it is refused. */
  lemma SenderReady(a: Kernel, tid: int, msg: seq<char>, replyCap: nat, b: Kernel, x: int)
    requires Succeeds(a, Send(tid, msg, replyCap), b) && RunsNow(a, x)
    ensures Sized(a) && 0 <= x < TASKS
    ensures Readied(a, b,
      if !Alive(a, tid) then [x]
      else if tid % TASKS != x && a.tasks[tid % TASKS].state.SendBlocked? then [tid % TASKS] else [])
  {
    hide Inv, RunsNow, Alive, SendTo;
    Runner(a, Send(tid, msg, replyCap), b, x);
    RunnerLists(a, x);
    var d := Dispatch(a);
    SendLists(d, tid, msg, replyCap);
    if !Alive(a, tid) {
      OneAppended(d.lists, b.tasks, x);
    } else if a.tasks[tid % TASKS].state.SendBlocked? && tid % TASKS != x {
      OneAppended(d.lists, b.tasks, tid % TASKS);
    }
  }

  lemma SendLists(d: Kernel, tid: int, msg: seq<char>, replyCap: nat)
    requires Running(d) && CanSend(d, tid)
    ensures
      var b, r := SendTo(d, tid, msg, replyCap), tid % TASKS;
      var t := if !Alive(d, tid) then d.active else r;
      var p := b.tasks[t].priority;
      && 0 <= p < PRIORITIES
      && forall i :: 0 <= i < PRIORITIES ==>
          b.lists[i] ==
            if i == p && (!Alive(d, tid) || (r != d.active && d.tasks[r].state.SendBlocked?)) then d.lists[i] + [t]
            else d.lists[i]
  {
    hide Placed, Letters, Slots, Ids;
    SendInv(d, tid, msg, replyCap);
    if Alive(d, tid) {
      assert RequestOk(d, tid % TASKS, {d.active});
    }
  }

  /** An interrupted task is the first to be ready again: whoever the devices wake comes after it. */
  lemma InterruptedFirst(a: Kernel, devices: seq<Interrupt>, b: Kernel, x: int)
    requires Succeeds(a, Irq(devices), b) && RunsNow(a, x)
    ensures Sized(a) && Sized(b) && 0 <= x < TASKS && 0 <= a.tasks[x].priority < PRIORITIES
    ensures
      var p := TopPriority(a.lists, PRIORITIES - 1);
      p == a.tasks[x].priority && a.lists[p] != [] && a.lists[p][1..] + [x] <= b.lists[p]
  {
    hide Inv, RunsNow, Alive;
    Runner(a, Irq(devices), b, x);
    RunnerLists(a, x);
    RunnerPriority(a, x);
    InterruptsGrow(Requeue(Dispatch(a)), devices);
  }

  lemma RunnerPriority(a: Kernel, x: int)
    requires Inv(a, {}) && CanDispatch(a) && RunsNow(a, x)
    ensures 0 <= x < TASKS && a.tasks[x].priority == TopPriority(a.lists, PRIORITIES - 1)
    ensures 0 <= a.tasks[x].priority < PRIORITIES
  {
    var p := TopPriority(a.lists, PRIORITIES - 1);
    assert x in a.lists[p];
    assert Home(a, x) == p;
  }

  /** Devices are served in turn: one that comes last is served last. */
  lemma {:induction false} ServedInTurn(a: Kernel, devices: seq<Interrupt>, d: Interrupt)
    requires CanInterrupt(a)
    ensures HandleInterrupts(a, devices + [d]) == HandleInterrupt(HandleInterrupts(a, devices), d)
    decreases |devices|
  {
    hide HandleInterrupt;
    if devices == [] {
      assert ([] + [d])[1..] == [] && devices + [d] == [d];
    } else {
      assert (devices + [d])[1..] == devices[1..] + [d];
      ServedInTurn(HandleInterrupt(a, devices[0]), devices[1..], d);
    }
  }

  // ---------- What a device gives to the task that waits for it ----------

  /** The task waiting in slot e, if any, gets the data and is ready; all others stay. */
  ghost predicate Served(a: Kernel, b: Kernel, e: int, data: seq<char>) {
    && Sized(a) && Sized(b) && 0 <= e < EVENTS
    && (a.slots[e] == NULL ==> b.tasks == a.tasks && b.slots == a.slots)
    && (a.slots[e] != NULL ==>
          && Answered(b, a.slots[e], Event(data)) && b.slots == a.slots[e := NULL]
          && forall y :: 0 <= y < TASKS && y != a.slots[e] ==> b.tasks[y] == a.tasks[y])
  }

  lemma WakeServes(a: Kernel, e: int, data: seq<char>)
    requires Inv(a, {}) && 0 <= e < EVENTS
    ensures CanWake(a, e) && Served(a, Wake(a, e, data), e, data)
    ensures Wake(a, e, data).ticks == a.ticks && Wake(a, e, data).keys == a.keys
  {
    hide Placed, Letters, Ids;
    assert SlotOk(a, e, {});
  }

  /** Each device serves its own event: the timer with a tick, the train line with exactly
      the byte received, the terminal with what it buffered, at most fifteen characters. */
  lemma DeviceServes(a: Kernel, d: Interrupt)
    requires Inv(a, {})
    ensures CanInterrupt(a)
    ensures
      var b := HandleInterrupt(a, d);
      match d
      case Timer =>
        && Served(a, b, CLOCK_TICK, ['A']) && b.keys == a.keys
        && b.ticks == (if a.slots[CLOCK_TICK] != NULL then []
                       else if |a.ticks| < BUFFER_SIZE then a.ticks + ['A'] else a.ticks)
      case Uart1Receive(c) => Served(a, b, UART1_RECEIVE_READY, [c]) && b.ticks == a.ticks && b.keys == a.keys
      case Uart1Transmit =>
        && (exists m :: Served(a, m, UART1_SEND_READY_INITIAL, []) && Served(m, b, UART1_SEND_READY, []))
        && b.ticks == a.ticks && b.keys == a.keys
      case Uart2Receive(text) =>
        var kept := if |a.keys + text| <= BUFFER_SIZE then a.keys + text else (a.keys + text)[..BUFFER_SIZE];
        && b.ticks == a.ticks
        && Served(a, b, UART2_RECEIVE_READY, if |kept| <= 15 then kept else kept[..15])
        && b.keys == (if a.slots[UART2_RECEIVE_READY] == NULL then kept else if |kept| <= 15 then [] else kept[15..])
      case Uart2Transmit => Served(a, b, UART2_SEND_READY, []) && b.ticks == a.ticks && b.keys == a.keys
  {
    hide Placed, Letters, Ids, Requests;
    InterruptMoves(a, d);
    match d {
      case Timer => TimerGives(a);
      case Uart1Receive(c) => WakeServes(a, UART1_RECEIVE_READY, [c]);
      case Uart1Transmit =>
        WakeServes(a, UART1_SEND_READY_INITIAL, []);
        WakeInv(a, UART1_SEND_READY_INITIAL, []);
        WakeServes(Wake(a, UART1_SEND_READY_INITIAL, []), UART1_SEND_READY, []);
      case Uart2Receive(text) => KeysGive(a, text);
      case Uart2Transmit => WakeServes(a, UART2_SEND_READY, []);
    }
  }

  lemma TimerGives(a: Kernel)
    requires Inv(a, {})
    ensures CanInterrupt(a)
    ensures
      var b := HandleInterrupt(a, Timer);
      && Served(a, b, CLOCK_TICK, ['A']) && b.keys == a.keys
      && b.ticks == (if a.slots[CLOCK_TICK] != NULL then []
                     else if |a.ticks| < BUFFER_SIZE then a.ticks + ['A'] else a.ticks)
  {
    hide Placed, Letters, Ids, Requests;
    var pushed := a.(ticks := Push(a.ticks, ['A']));
    assert SlotOk(a, CLOCK_TICK, {});
    InterruptMoves(a, Timer);
    assert a.ticks == [] ==> Push(a.ticks, ['A']) == ['A'];
  }

  lemma KeysGive(a: Kernel, text: seq<char>)
    requires Inv(a, {})
    ensures CanInterrupt(a)
    ensures
      var b := HandleInterrupt(a, Uart2Receive(text));
      var kept := if |a.keys + text| <= BUFFER_SIZE then a.keys + text else (a.keys + text)[..BUFFER_SIZE];
      && b.ticks == a.ticks
      && Served(a, b, UART2_RECEIVE_READY, if |kept| <= 15 then kept else kept[..15])
      && b.keys == (if a.slots[UART2_RECEIVE_READY] == NULL then kept else if |kept| <= 15 then [] else kept[15..])
  {
    hide Placed, Letters, Ids, Requests;
    assert SlotOk(a, UART2_RECEIVE_READY, {});
    InterruptMoves(a, Uart2Receive(text));
    PushKeeps(a.keys, text);
  }

  lemma PushKeeps(keys: seq<char>, text: seq<char>)
    requires |keys| <= BUFFER_SIZE
    ensures Push(keys, text) ==
      if |keys + text| <= BUFFER_SIZE then keys + text else (keys + text)[..BUFFER_SIZE]
  {
  }

  // ---------- Parents ----------

  ghost predicate ParentsKept(a: Kernel, b: Kernel) {
    && Sized(a) && Sized(b)
    && forall x :: 0 <= x < a.nextFree && !a.tasks[x].state.Zombie? ==> b.tasks[x].parent == a.tasks[x].parent
  }

  lemma WakeParents(a: Kernel, e: int, data: seq<char>)
    requires CanWake(a, e)
    ensures forall x :: 0 <= x < TASKS ==> Wake(a, e, data).tasks[x].parent == a.tasks[x].parent
  {
  }

  lemma InterruptParents(a: Kernel, d: Interrupt)
    requires CanInterrupt(a)
    ensures forall x :: 0 <= x < TASKS ==> HandleInterrupt(a, d).tasks[x].parent == a.tasks[x].parent
  {
    match d {
      case Timer => WakeParents(a.(ticks := Push(a.ticks, ['A'])), CLOCK_TICK, Batch(Push(a.ticks, ['A'])));
      case Uart1Receive(c) => WakeParents(a, UART1_RECEIVE_READY, [c]);
      case Uart1Transmit =>
        WakeParents(a, UART1_SEND_READY_INITIAL, []);
        WakeParents(Wake(a, UART1_SEND_READY_INITIAL, []), UART1_SEND_READY, []);
      case Uart2Receive(text) =>
        WakeParents(a.(keys := Push(a.keys, text)), UART2_RECEIVE_READY, Batch(Push(a.keys, text)));
      case Uart2Transmit => WakeParents(a, UART2_SEND_READY, []);
    }
  }

  lemma {:induction false} InterruptsParents(a: Kernel, devices: seq<Interrupt>)
    requires CanInterrupt(a)
    ensures forall x :: 0 <= x < TASKS ==> HandleInterrupts(a, devices).tasks[x].parent == a.tasks[x].parent
    decreases |devices|
  {
    hide HandleInterrupt;
    if devices != [] {
      InterruptParents(a, devices[0]);
      InterruptsParents(HandleInterrupt(a, devices[0]), devices[1..]);
    }
  }

  lemma CreateParents(d: Kernel, prio: int)
    requires Running(d) && CanHandle(d, Create(prio))
    ensures ParentsKept(d, CreateTask(d, prio))
  {
    hide Placed, Letters, Slots;
    if IsPriority(prio) {
      NewIdUnused(d, prio);
    }
  }

  lemma SendParents(d: Kernel, tid: int, msg: seq<char>, replyCap: nat)
    requires CanSend(d, tid)
    ensures ParentsKept(d, SendTo(d, tid, msg, replyCap))
  {
    hide Alive;
  }

  lemma ReceiveParents(d: Kernel, cap: nat)
    requires CanReceive(d)
    ensures ParentsKept(d, ReceiveNext(d, cap))
  {
  }

  lemma ReplyParents(d: Kernel, tid: int, reply: seq<char>)
    requires CanReply(d, tid)
    ensures ParentsKept(d, ReplyTo(d, tid, reply))
  {
    hide Alive;
  }

  lemma AwaitParents(d: Kernel, e: int)
    requires CanAwait(d)
    ensures ParentsKept(d, Await(d, e))
  {
  }

  lemma HandleParents(d: Kernel, req: Request)
    requires Running(d) && CanHandle(d, req) && Admissible(d, req)
    ensures ParentsKept(d, Handle(d, req))
  {
    hide Inv, HandleInterrupts, CreateTask, SendTo, ReceiveNext, ReplyTo, Await;
    match req {
      case Irq(devices) => InterruptsParents(Requeue(d), devices);
      case Create(prio) => CreateParents(d, prio);
      case Send(tid, msg, replyCap) => SendParents(d, tid, msg, replyCap);
      case Receive(cap) => ReceiveParents(d, cap);
      case Reply(tid, reply) => ReplyParents(d, tid, reply);
      case AwaitEvent(e) => AwaitParents(d, e);
      case _ =>
    }
  }

  /** A live task keeps its parent. */
  lemma ParentStays(a: Kernel, req: Request, b: Kernel)
    requires Succeeds(a, req, b)
    ensures ParentsKept(a, b)
  {
    hide Inv, Alive, Handle, RunsNow;
    var x := Dispatch(a).active;
    assert RunsNow(a, x) by { RunnerIs(a); }
    Runner(a, req, b, x);
    HandleParents(Dispatch(a), req);
  }

  lemma RunnerIs(a: Kernel)
    requires CanDispatch(a)
    ensures RunsNow(a, Dispatch(a).active)
  {
  }

  lemma AliveAt(states: seq<Kernel>, reqs: seq<Request>, tid: int, i: nat, j: nat, n: nat)
    requires IsRun(states, reqs) && i <= j <= n <= |reqs| && Alive(states[i], tid) && Alive(states[n], tid)
    ensures Alive(states[j], tid)
  {
    NoIdTwice(states, reqs, i, j);
    NoIdTwice(states, reqs, j, n);
    RunInv(states, reqs, i);
    assert IdOk(states[i], tid % TASKS);
  }

  lemma {:induction false} ParentOverRun(states: seq<Kernel>, reqs: seq<Request>, tid: int, i: nat, n: nat)
    requires IsRun(states, reqs) && i <= n <= |reqs| && Alive(states[i], tid) && Alive(states[n], tid)
    ensures states[n].tasks[tid % TASKS].parent == states[i].tasks[tid % TASKS].parent
    decreases n
  {
    hide Succeeds, Inv;
    if i < n {
      AliveAt(states, reqs, tid, i, n - 1, n);
      assert Round(states, reqs, n - 1);
      ParentOverRun(states, reqs, tid, i, n - 1);
      ParentStays(states[n - 1], reqs[n - 1], states[n]);
    }
  }

  /** A task that asks for its parent's id gets what is in the descriptor of the task that
      created it, however long ago that was. */
  lemma CreatorsId(states: seq<Kernel>, reqs: seq<Request>, i: nat, n: nat, creator: int, child: int)
    requires IsRun(states, reqs) && i < n < |reqs| && RunsNow(states[i], creator) && RunsNow(states[n], child % TASKS)
    requires reqs[i].Create? && IsPriority(reqs[i].prio) && reqs[n] == MyParentTid
    requires |states[i + 1].issued| > 0 && child == states[i + 1].issued[|states[i + 1].issued| - 1]
    requires Alive(states[n], child)
    ensures 0 <= creator < TASKS && Answered(states[n + 1], child % TASKS, Value(states[n].tasks[creator].id))
  {
    hide Succeeds, Inv, RunsNow;
    assert Round(states, reqs, i) && Round(states, reqs, n);
    CreatedId(states[i], reqs[i].prio, states[i + 1], creator);
    ParentOverRun(states, reqs, child, i + 1, n);
    ParentsId(states[n], states[n + 1], child % TASKS);
    RunnerBounds(states[i], reqs[i], states[i + 1], creator);
  }

  lemma RunnerBounds(a: Kernel, req: Request, b: Kernel, x: int)
    requires Succeeds(a, req, b) && RunsNow(a, x)
    ensures 0 <= x < TASKS
  {
    Runner(a, req, b, x);
  }

  /** The first task has no parent. */
  lemma FirstHasNone(memory: seq<Task>)
    requires |memory| == TASKS
    ensures
      var b := Boot(memory);
      && b.tasks[0].parent == NULL && b.tasks[0].id == 0 && b.tasks[0].state.Ready? && b.nextFree == 1
      && b.tasks[0].priority == SYSTEM_FIRST && b.lists[SYSTEM_FIRST] == [0]
      && forall i :: 0 <= i < LISTS && i != SYSTEM_FIRST ==> b.lists[i] == []
  {
  }
}
