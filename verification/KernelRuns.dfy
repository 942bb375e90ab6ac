/** Runs of the kernel's main loop, and what holds over whole runs. */
module KernelRuns {
  import opened KernelModel
  import opened KernelInvariant

  // ---------- Runs ----------

  const SYSTEM_FIRST := 7

  /** The kernel after initialisation, with the first task made ready; descriptors not
      yet used hold arbitrary data. */
  ghost function Boot(memory: seq<Task>): (a: Kernel)
    requires |memory| == TASKS
    ensures Sized(a)
  {
    SetReady(NewTask(EmptyKernel(memory), SYSTEM_FIRST).0, 0)
  }

  ghost function EmptyKernel(memory: seq<Task>): (a: Kernel)
    requires |memory| == TASKS
    ensures Sized(a) && a.nextFree == 0
  {
    Kernel(memory, seq(LISTS, _ => []), 0, NULL, seq(EVENTS, _ => NULL), [], [], [],
           seq(TASKS, _ => []), seq(TASKS, _ => []))
  }

  lemma BootInv(memory: seq<Task>)
    requires |memory| == TASKS
    ensures Inv(Boot(memory), {})
  {
    var e := EmptyKernel(memory);
    assert Inv(e, {});
    NewIdUnused(e, SYSTEM_FIRST);
    NewTaskPlaced(e, SYSTEM_FIRST, {});
    NewTaskLetters(e, SYSTEM_FIRST);
    NewTaskIds(e, SYSTEM_FIRST);
    NewTaskRequests(e, SYSTEM_FIRST, {});
    var (a, t) := NewTask(e, SYSTEM_FIRST);
    SetReadyInv(a, t, {} + {t});
    assert {} + {t} - {t} == {};
  }

  /** Some task is ready, and the request it will make is one the kernel accepts. */
  ghost predicate CanStep(a: Kernel, req: Request) {
    && Inv(a, {})
    && TopPriority(a.lists, PRIORITIES - 1) >= 0
    && CanDispatch(a)
    && Admissible(Dispatch(a), req)
  }

  /** One round of the main loop: dispatch, then handle the request of the task that ran. */
  ghost function Step(a: Kernel, req: Request): (b: Kernel)
    requires CanStep(a, req)
    ensures Inv(b, {})
  {
    DispatchInv(a);
    HandleInv(Dispatch(a), req);
    Handle(Dispatch(a), req)
  }

  ghost predicate Succeeds(a: Kernel, req: Request, b: Kernel) {
    CanStep(a, req) && b == Step(a, req)
  }

  ghost predicate Round(states: seq<Kernel>, reqs: seq<Request>, i: nat)
    requires i < |reqs| && i + 1 < |states|
  {
    Succeeds(states[i], reqs[i], states[i + 1])
  }

  /** A run: the states between the rounds of the main loop, and the requests handled. */
  ghost predicate IsRun(states: seq<Kernel>, reqs: seq<Request>) {
    && |states| == |reqs| + 1
    && Inv(states[0], {})
    && (forall i :: 0 <= i <= |reqs| ==> Sized(states[i]))
    && forall i :: 0 <= i < |reqs| ==> Round(states, reqs, i)
  }

  /** States of runs that start with the first task. */
  ghost predicate Reachable(b: Kernel) {
    exists memory: seq<Task>, states: seq<Kernel>, reqs: seq<Request> {:trigger Boot(memory), IsRun(states, reqs)} ::
      && |memory| == TASKS
      && IsRun(states, reqs)
      && states[0] == Boot(memory)
      && b == states[|reqs|]
  }

  lemma {:induction false} RunInv(states: seq<Kernel>, reqs: seq<Request>, i: nat)
    requires IsRun(states, reqs) && i <= |reqs|
    ensures Inv(states[i], {})
  {
    if i > 0 {
      assert Round(states, reqs, i - 1);
    }
  }

  lemma ReachableInv(b: Kernel)
    requires Reachable(b)
    ensures Inv(b, {})
  {
    var memory: seq<Task>, states: seq<Kernel>, reqs: seq<Request> :|
      |memory| == TASKS && IsRun(states, reqs) && states[0] == Boot(memory) && b == states[|reqs|];
    RunInv(states, reqs, |reqs|);
  }

  // ---------- Every task is in exactly one place ----------

  datatype Place =
    | ReadyQueue(p: int)
    | SenderQueue(r: int)
    | FreeList
    | EventSlot(e: int)
    | WaitsInReceive
    | WaitsForReply
    | Retired
    | Stranded

  /** Task x is in this place, going by the lists, slots and states of the kernel. */
  ghost predicate At(a: Kernel, x: int, place: Place)
    requires Sized(a) && 0 <= x < TASKS
  {
    match place
    case ReadyQueue(p) => 0 <= p < PRIORITIES && x in a.lists[p]
    case SenderQueue(r) => 0 <= r < TASKS && x in a.lists[SenderQ(r)]
    case FreeList => x in a.lists[FREE]
    case EventSlot(e) => 0 <= e < EVENTS && a.slots[e] == x
    case WaitsInReceive => a.tasks[x].state.SendBlocked?
    case WaitsForReply => a.tasks[x].state.ReplBlocked?
    case Retired => a.tasks[x].state.Zombie? && x !in a.lists[FREE]
    case Stranded => a.tasks[x].state.RecvBlocked? && forall r :: 0 <= r < TASKS ==> x !in a.lists[SenderQ(r)]
  }

  ghost function PlaceOf(a: Kernel, x: int): (place: Place)
    requires Inv(a, {}) && 0 <= x < a.nextFree
  {
    var t := a.tasks[x];
    match t.state
    case Ready => ReadyQueue(t.priority)
    case RecvBlocked => if Alive(a, t.req.value.tid) then SenderQueue(t.req.value.tid % TASKS) else Stranded
    case Zombie => if t.id in a.issued then Retired else FreeList
    case SendBlocked => WaitsInReceive
    case ReplBlocked => WaitsForReply
    case _ => if t.req.Some? && t.req.value.AwaitEvent? then EventSlot(t.req.value.event) else Retired
  }

  /** In every reachable kernel an allocated descriptor is in exactly one place, no list
      holds it twice, a queued sender waits behind the live task it named, and a
      stranded one named a task that is gone. */
  lemma ExactlyOnePlace(a: Kernel, x: int)
    requires Reachable(a) && 0 <= x < a.nextFree
    ensures Inv(a, {})
    ensures forall place :: At(a, x, place) <==> place == PlaceOf(a, x)
    ensures forall k :: 0 <= k < LISTS ==> NoDup(a.lists[k])
    ensures PlaceOf(a, x).ReadyQueue? ==> PlaceOf(a, x).p == a.tasks[x].priority
    ensures PlaceOf(a, x).SenderQueue? ==> a.tasks[PlaceOf(a, x).r].id == a.tasks[x].req.value.tid
    ensures PlaceOf(a, x).Stranded? ==> !Alive(a, a.tasks[x].req.value.tid)
    ensures PlaceOf(a, x).Retired? ==> a.tasks[x].state.Zombie?
  {
    ReachableInv(a);
    assert RequestOk(a, x, {});
    forall place
      ensures At(a, x, place) <==> place == PlaceOf(a, x)
    {
      PlaceUnique(a, x, place);
    }
  }

  lemma PlaceUnique(a: Kernel, x: int, place: Place)
    requires Inv(a, {}) && 0 <= x < a.nextFree
    ensures At(a, x, place) <==> place == PlaceOf(a, x)
  {
    assert RequestOk(a, x, {});
    var h := Home(a, x);
    assert forall k :: 0 <= k < LISTS ==> (x in a.lists[k] <==> h == k);
    match place {
      case EventSlot(e) => if 0 <= e < EVENTS { assert SlotOk(a, e, {}); }
      case _ =>
    }
  }

  /** In every reachable kernel the request that a waiting task has saved is of the kind
      that the handlers take it for, nobody queues behind a task that waits in Receive,
      and a task waits for ticks or keys only while there are none. */
  lemma RequestKinds(a: Kernel, x: int, e: int)
    requires Reachable(a) && 0 <= x < a.nextFree && 0 <= e < EVENTS
    ensures Sized(a) && !a.tasks[x].state.Initialized?
    ensures var t := a.tasks[x];
      && (t.state.RecvBlocked? || t.state.ReplBlocked? ==> t.req.Some? && t.req.value.Send?)
      && (t.state.SendBlocked? ==> t.req.Some? && t.req.value.Receive? && a.lists[SenderQ(x)] == [])
      && (t.state.Active? ==> t.req.Some? && t.req.value.AwaitEvent?)
      && (a.slots[e] == x <==> t.state.Active? && t.req == Some(AwaitEvent(e)))
    ensures a.slots[e] != NULL ==> 0 <= a.slots[e] < a.nextFree
    ensures a.slots[CLOCK_TICK] != NULL ==> a.ticks == []
    ensures a.slots[UART2_RECEIVE_READY] != NULL ==> a.keys == []
  {
    ReachableInv(a);
    assert RequestOk(a, x, {}) && SlotOk(a, e, {});
  }

  // ---------- What one step leaves alone ----------

  /** Only tasks in `touched` change, and none of them its id or whether it is a zombie. */
  ghost predicate Moves(a: Kernel, b: Kernel, touched: set<int>) {
    && Sized(a) && Sized(b)
    && b.nextFree == a.nextFree && b.issued == a.issued
    && (forall x :: 0 <= x < TASKS && x !in touched ==> b.tasks[x] == a.tasks[x])
    && (forall x :: 0 <= x < TASKS ==>
          b.tasks[x].id == a.tasks[x].id && b.tasks[x].state.Zombie? == a.tasks[x].state.Zombie?)
  }

  ghost predicate SameLogs(a: Kernel, b: Kernel) {
    b.sent == a.sent && b.got == a.got
  }

  lemma RequeueMoves(a: Kernel)
    requires Live(a)
    ensures Moves(a, Requeue(a), {a.active}) && SameLogs(a, Requeue(a))
  {
  }

  lemma ReturnMoves(a: Kernel, v: int)
    requires Live(a)
    ensures Moves(a, Return(a, v), {a.active}) && SameLogs(a, Return(a, v))
  {
  }

  lemma RefuseMoves(a: Kernel)
    requires Live(a)
    ensures Moves(a, Refuse(a), {a.active}) && SameLogs(a, Refuse(a))
  {
  }

  lemma WakeMoves(a: Kernel, e: int, data: seq<char>)
    requires CanWake(a, e) && (a.slots[e] != NULL ==> a.tasks[a.slots[e]].state.Active?)
    ensures var b := Wake(a, e, data);
      Moves(a, b, if a.slots[e] == NULL then {} else {a.slots[e]}) && SameLogs(a, b)
  {
  }

  /** Tasks that an interrupt may make ready: those waiting in slots. */
  ghost function Actives(a: Kernel): (s: set<int>)
    requires Sized(a)
  {
    set x | 0 <= x < a.nextFree && a.tasks[x].state.Active?
  }

  lemma MovesActives(a: Kernel, b: Kernel, c: Kernel)
    requires Sized(a) && Sized(b)
    requires Moves(a, b, Actives(a)) && Moves(b, c, Actives(b)) && SameLogs(a, b) && SameLogs(b, c)
    requires Actives(b) <= Actives(a)
    ensures Moves(a, c, Actives(a)) && SameLogs(a, c)
  {
  }

  lemma WakeActives(a: Kernel, e: int, data: seq<char>)
    requires Inv(a, {}) && 0 <= e < EVENTS
    ensures CanWake(a, e)
    ensures var b := Wake(a, e, data);
      Moves(a, b, Actives(a)) && SameLogs(a, b) && Actives(b) <= Actives(a)
  {
    assert SlotOk(a, e, {});
    WakeMoves(a, e, data);
  }

  lemma TimerIsWake(a: Kernel)
    requires Inv(a, {})
    ensures CanInterrupt(a)
    ensures var b, w := HandleInterrupt(a, Timer), Wake(a, CLOCK_TICK, Batch(Push(a.ticks, ['A'])));
      b.tasks == w.tasks && b.nextFree == w.nextFree && b.issued == w.issued && SameLogs(b, w)
  {
  }

  lemma KeysIsWake(a: Kernel, text: seq<char>)
    requires Inv(a, {})
    ensures CanInterrupt(a)
    ensures var b, w := HandleInterrupt(a, Uart2Receive(text)), Wake(a, UART2_RECEIVE_READY, Batch(Push(a.keys, text)));
      b.tasks == w.tasks && b.nextFree == w.nextFree && b.issued == w.issued && SameLogs(b, w)
  {
  }

  lemma InterruptMoves(a: Kernel, d: Interrupt)
    requires Inv(a, {})
    ensures CanInterrupt(a)
    ensures var b := HandleInterrupt(a, d);
      Moves(a, b, Actives(a)) && SameLogs(a, b) && Actives(b) <= Actives(a)
  {
    match d {
      case Timer =>
        TimerIsWake(a);
        WakeActives(a, CLOCK_TICK, Batch(Push(a.ticks, ['A'])));
      case Uart1Receive(c) => WakeActives(a, UART1_RECEIVE_READY, [c]);
      case Uart1Transmit =>
        WakeActives(a, UART1_SEND_READY_INITIAL, []);
        WakeInv(a, UART1_SEND_READY_INITIAL, []);
        var w := Wake(a, UART1_SEND_READY_INITIAL, []);
        WakeActives(w, UART1_SEND_READY, []);
        MovesActives(a, w, Wake(w, UART1_SEND_READY, []));
      case Uart2Receive(text) =>
        KeysIsWake(a, text);
        WakeActives(a, UART2_RECEIVE_READY, Batch(Push(a.keys, text)));
      case Uart2Transmit => WakeActives(a, UART2_SEND_READY, []);
    }
  }

  lemma {:induction false} InterruptsMove(a: Kernel, devices: seq<Interrupt>)
    requires Inv(a, {})
    ensures CanInterrupt(a)
    ensures var b := HandleInterrupts(a, devices);
      Moves(a, b, Actives(a)) && SameLogs(a, b) && Actives(b) <= Actives(a)
    decreases |devices|
  {
    if devices != [] {
      InterruptInv(a, devices[0]);
      InterruptMoves(a, devices[0]);
      var c := HandleInterrupt(a, devices[0]);
      InterruptsMove(c, devices[1..]);
      MovesActives(a, c, HandleInterrupts(c, devices[1..]));
    }
  }

  lemma IrqMoves(a: Kernel, devices: seq<Interrupt>)
    requires Running(a)
    ensures CanHandle(a, Irq(devices))
    ensures var b := Handle(a, Irq(devices));
      Moves(a, b, Actives(a)) && SameLogs(a, b)
  {
    RequeueInv(a);
    RequeueMoves(a);
    InterruptsMove(Requeue(a), devices);
    assert Actives(Requeue(a)) <= Actives(a);
  }

  /** The room that task r offers, in this Receive or in the one it waits in. */
  ghost function Room(a: Kernel, req: Request, r: int): (cap: nat)
    requires Sized(a) && 0 <= r < TASKS
  {
    if req.Receive? then req.cap
    else if a.tasks[r].req.Some? && a.tasks[r].req.value.Receive? then a.tasks[r].req.value.cap
    else 0
  }

  lemma SendMoves(a: Kernel, tid: int, msg: seq<char>, replyCap: nat)
    requires Live(a) && CanSend(a, tid)
    ensures var b := SendTo(a, tid, msg, replyCap);
      var r := tid % TASKS;
      var waits := Alive(a, tid) && r != a.active && a.tasks[r].state.SendBlocked?;
      && Moves(a, b, if waits then {a.active, r} else {a.active})
      && b.sent == (if Alive(a, tid) then a.sent[r := a.sent[r] + [Letter(a.tasks[a.active].id, msg)]] else a.sent)
      && b.got == (if waits then
                     a.got[r := a.got[r] + [Receipt(Room(a, Send(tid, msg, replyCap), r), b.tasks[r].result)]]
                   else a.got)
  {
  }

  lemma ReceiveMoves(a: Kernel, cap: nat)
    requires Live(a) && (a.lists[SenderQ(a.active)] != [] ==> HasSender(a))
    ensures CanReceive(a)
    ensures var b := ReceiveNext(a, cap);
      var r := a.active;
      var q := a.lists[SenderQ(r)];
      && Moves(a, b, if q == [] then {r} else {r, q[0]})
      && b.sent == a.sent
      && b.got == (if q == [] then a.got else a.got[r := a.got[r] + [Receipt(cap, b.tasks[r].result)]])
  {
  }

  lemma ReplyMoves(a: Kernel, tid: int, reply: seq<char>)
    requires Live(a) && CanReply(a, tid)
    ensures var b := ReplyTo(a, tid, reply);
      && Moves(a, b, if ReplyTarget(a, tid) then {a.active, tid % TASKS} else {a.active})
      && SameLogs(a, b)
  {
  }

  lemma AwaitMoves(a: Kernel, e: int)
    requires Live(a)
    ensures Moves(a, Await(a, e), {a.active}) && SameLogs(a, Await(a, e))
  {
  }

  /** Creating a task changes the creator and the new descriptor, whose logs start empty. */
  ghost predicate Creates(a: Kernel, b: Kernel, prio: int, t: int)
    requires Sized(a) && Sized(b) && 0 <= t < TASKS && 0 <= a.active < TASKS
  {
    var id := b.tasks[t].id;
    && id !in a.issued && b.issued == a.issued + [id] && Alive(b, id)
    && b.tasks[t].state.Ready? && b.tasks[t].priority == prio && b.tasks[t].parent == a.active
    && b.tasks[a.active].result == Value(id)
    && a.nextFree <= b.nextFree <= a.nextFree + 1
    && (forall x :: 0 <= x < TASKS && x != t && x != a.active ==> b.tasks[x] == a.tasks[x])
    && t != a.active && b.tasks[a.active].id == a.tasks[a.active].id && !b.tasks[a.active].state.Zombie?
    && b.sent == a.sent[t := []] && b.got == a.got[t := []]
  }

  lemma ReadyMoves(a: Kernel, t: int)
    requires IsTask(a, t) && !a.tasks[t].state.Zombie?
    ensures Moves(a, SetReady(a, t), {t}) && SameLogs(a, SetReady(a, t))
    ensures SetReady(a, t).tasks[t].state.Ready? && SetReady(a, t).tasks[t].priority == a.tasks[t].priority
    ensures SetReady(a, t).tasks[t].parent == a.tasks[t].parent && SetReady(a, t).active == a.active
  {
  }

  lemma CreateMoves(a: Kernel, prio: int)
    requires Running(a) && (IsPriority(prio) ==> CanCreate(a))
    ensures CanHandle(a, Create(prio))
    ensures var b := CreateTask(a, prio);
      if IsPriority(prio) then
        var t := NewTask(a, prio).1;
        (a.nextFree <= t || a.tasks[t].state.Zombie?) && Creates(a, b, prio, t)
      else
        Moves(a, b, {a.active}) && SameLogs(a, b)
  {
    hide Placed, Letters, Slots, Requeue, Return, KernelModel.SetReady;
    CreateInv(a, prio);
    if IsPriority(prio) {
      NewIdUnused(a, prio);
      NewTaskInv(a, prio);
      var (a1, t) := NewTask(a, prio);
      var a2 := SetParent(a1, t, a.active);
      ReadyMoves(a2, t);
      ReturnCreates(SetReady(a2, t), a1.tasks[t].id);
    } else {
      ReturnMoves(a, -1);
    }
  }

  lemma ReturnCreates(a: Kernel, v: int)
    requires Live(a)
    ensures Moves(a, Return(a, v), {a.active}) && SameLogs(a, Return(a, v))
    ensures Return(a, v).tasks[a.active].result == Value(v)
    ensures Return(a, v).nextFree == a.nextFree && Return(a, v).issued == a.issued
  {
  }

  lemma ExitMoves(a: Kernel)
    requires Live(a) && Ids(a)
    ensures var b := ExitTask(a);
      && (forall x :: 0 <= x < TASKS && x != a.active ==> b.tasks[x] == a.tasks[x])
      && b.tasks[a.active].state.Zombie? && SameLogs(a, b) && b.issued == a.issued && b.nextFree == a.nextFree
  {
  }

  // ---------- Task ids over runs ----------

  /** A step revives no dead id, and keeps the record of issued ids. */
  ghost predicate IdsKept(a: Kernel, b: Kernel) {
    && Sized(a) && Sized(b)
    && a.issued <= b.issued
    && forall tid :: tid in a.issued && !Alive(a, tid) ==> !Alive(b, tid)
  }

  lemma MovesKeepIds(a: Kernel, b: Kernel, touched: set<int>)
    requires Moves(a, b, touched)
    ensures IdsKept(a, b)
  {
  }

  lemma CreateKeepsIds(a: Kernel, prio: int)
    requires Running(a) && (IsPriority(prio) ==> CanCreate(a))
    ensures CanHandle(a, Create(prio)) && IdsKept(a, CreateTask(a, prio))
  {
    CreateMoves(a, prio);
    var b := CreateTask(a, prio);
    if IsPriority(prio) {
      var t := NewTask(a, prio).1;
      forall tid | tid in a.issued && !Alive(a, tid)
        ensures !Alive(b, tid)
      {
        assert 0 <= tid && tid % TASKS < a.nextFree;
      }
    } else {
      MovesKeepIds(a, b, {a.active});
    }
  }

  lemma HandleKeepsIds(a: Kernel, req: Request)
    requires Running(a) && Admissible(a, req)
    ensures CanHandle(a, req)
    ensures IdsKept(a, Handle(a, req))
  {
    hide Placed, Letters, Requests, Slots, Ids, HandleInterrupts, CreateTask, SendTo, ReceiveNext, ReplyTo, Await;
    HandleInv(a, req);
    match req {
      case Irq(devices) => IrqMoves(a, devices); MovesKeepIds(a, Handle(a, req), Actives(a));
      case MyTid => ReturnMoves(a, a.tasks[a.active].id);
      case MyParentTid =>
        var parent := a.tasks[a.active].parent;
        ReturnMoves(a, if 0 <= parent < TASKS then a.tasks[parent].id else -1);
      case Create(prio) => CreateKeepsIds(a, prio);
      case Send(tid, msg, replyCap) => SendMoves(a, tid, msg, replyCap);
      case Receive(cap) =>
        if a.lists[SenderQ(a.active)] != [] { HeadSender(a); }
        ReceiveMoves(a, cap);
      case Reply(tid, reply) => ReplyMoves(a, tid, reply);
      case AwaitEvent(e) => AwaitMoves(a, e);
      case Exit => ExitMoves(a);
      case Unknown => RefuseMoves(a);
    }
  }

  lemma DispatchMoves(a: Kernel)
    requires Inv(a, {}) && CanDispatch(a)
    ensures var b := Dispatch(a); Moves(a, b, {b.active}) && SameLogs(a, b) && b.slots == a.slots
  {
    DispatchPlaced(a);
  }

  lemma StepKeepsIds(a: Kernel, req: Request, b: Kernel)
    requires Succeeds(a, req, b)
    ensures IdsKept(a, b)
  {
    DispatchInv(a);
    DispatchMoves(a);
    MovesKeepIds(a, Dispatch(a), {Dispatch(a).active});
    HandleKeepsIds(Dispatch(a), req);
  }

  /** Over any run an id that has died stays dead, ids are recorded in the order they
      are issued, and the record never repeats: no task id is ever issued twice. */
  lemma {:induction false} NoIdTwice(states: seq<Kernel>, reqs: seq<Request>, i: nat, j: nat)
    requires IsRun(states, reqs) && i <= j <= |reqs|
    ensures IdsKept(states[i], states[j]) && NoDup(states[j].issued)
    ensures var b := states[j]; forall x :: 0 <= x < b.nextFree && !b.tasks[x].state.Zombie? ==>
        b.tasks[x].id in b.issued && b.tasks[x].id % TASKS == x
    decreases j
  {
    hide Handle, Dispatch, CanStep, Succeeds, Placed, Letters, Requests, Slots;
    RunInv(states, reqs, j);
    if i < j {
      NoIdTwice(states, reqs, i, j - 1);
      assert Round(states, reqs, j - 1);
      StepKeepsIds(states[j - 1], reqs[j - 1], states[j]);
    }
  }

  // ---------- Messages are received in the order sent, once each ----------

  /** The letter that handling `req` puts before the task with this id, if any. */
  ghost function Posts(a: Kernel, req: Request, tid: int): (letters: seq<Letter>)
    requires Sized(a) && 0 <= a.active < TASKS
  {
    if req.Send? && req.tid == tid then [Letter(a.tasks[a.active].id, req.msg)] else []
  }

  /** Whether handling `req` completes a Receive of task r. */
  ghost predicate Collects(a: Kernel, req: Request, r: int)
    requires Sized(a) && 0 <= a.active < TASKS && 0 <= r < TASKS
  {
    || (req.Receive? && r == a.active && a.lists[SenderQ(r)] != [])
    || (req.Send? && Alive(a, req.tid) && req.tid % TASKS == r && r != a.active && a.tasks[r].state.SendBlocked?)
  }

  ghost predicate LogsGrow(a: Kernel, b: Kernel, req: Request, tid: int)
    requires Sized(a) && Sized(b) && 0 <= a.active < TASKS && 0 <= tid
  {
    var r := tid % TASKS;
    && b.sent[r] == a.sent[r] + Posts(a, req, tid)
    && b.got[r] == a.got[r] + if Collects(a, req, r) then [Receipt(Room(a, req, r), b.tasks[r].result)] else []
  }

  lemma SendLogs(a: Kernel, to: int, msg: seq<char>, replyCap: nat, tid: int)
    requires Running(a) && CanSend(a, to) && Alive(a, tid)
    ensures LogsGrow(a, SendTo(a, to, msg, replyCap), Send(to, msg, replyCap), tid)
  {
    SendMoves(a, to, msg, replyCap);
  }

  lemma ReceiveLogs(a: Kernel, cap: nat, tid: int)
    requires Running(a) && CanReceive(a) && Alive(a, tid)
    ensures LogsGrow(a, ReceiveNext(a, cap), Receive(cap), tid)
  {
    if a.lists[SenderQ(a.active)] != [] { HeadSender(a); }
    ReceiveMoves(a, cap);
  }

  lemma CreateLogs(a: Kernel, prio: int, tid: int)
    requires Running(a) && CanHandle(a, Create(prio)) && Alive(a, tid)
    ensures LogsGrow(a, CreateTask(a, prio), Create(prio), tid)
  {
    CreateMoves(a, prio);
  }

  lemma HandleLogs(a: Kernel, req: Request, tid: int)
    requires Running(a) && Admissible(a, req) && Alive(a, tid)
    ensures CanHandle(a, req)
    ensures LogsGrow(a, Handle(a, req), req, tid)
  {
    hide Placed, Letters, Requests, Slots, Ids, HandleInterrupts, CreateTask, SendTo, ReceiveNext, ReplyTo, Await;
    HandleInv(a, req);
    match req {
      case Irq(devices) => IrqMoves(a, devices);
      case MyTid => ReturnMoves(a, a.tasks[a.active].id);
      case MyParentTid =>
        var parent := a.tasks[a.active].parent;
        ReturnMoves(a, if 0 <= parent < TASKS then a.tasks[parent].id else -1);
      case Create(prio) => CreateLogs(a, prio, tid);
      case Send(to, msg, replyCap) => SendLogs(a, to, msg, replyCap, tid);
      case Receive(cap) => ReceiveLogs(a, cap, tid);
      case Reply(to, reply) => ReplyMoves(a, to, reply);
      case AwaitEvent(e) => AwaitMoves(a, e);
      case Exit => ExitMoves(a);
      case Unknown => RefuseMoves(a);
    }
  }

  /** The letters sent to a task id in the first n rounds of a run, in the order of the Send calls. */
  ghost function Mail(states: seq<Kernel>, reqs: seq<Request>, tid: int, n: nat): (letters: seq<Letter>)
    requires IsRun(states, reqs) && n <= |reqs|
  {
    if n == 0 then []
    else
      assert Round(states, reqs, n - 1);
      Mail(states, reqs, tid, n - 1) + Posts(Dispatch(states[n - 1]), reqs[n - 1], tid)
  }

  /** What the Receive calls of a task id returned in the first n rounds, and the room they
      offered, in the order they completed. */
  ghost function Inbox(states: seq<Kernel>, reqs: seq<Request>, tid: int, n: nat): (results: seq<Receipt>)
    requires IsRun(states, reqs) && n <= |reqs| && 0 <= tid
  {
    if n == 0 then []
    else
      assert Round(states, reqs, n - 1);
      var d, r := Dispatch(states[n - 1]), tid % TASKS;
      Inbox(states, reqs, tid, n - 1) +
      if Collects(d, reqs[n - 1], r) then [Receipt(Room(d, reqs[n - 1], r), states[n].tasks[r].result)] else []
  }

  /** One round of the main loop, for the logs of a task alive before it. */
  lemma StepLogs(a: Kernel, req: Request, b: Kernel, tid: int)
    requires Succeeds(a, req, b) && Alive(a, tid)
    ensures LogsGrow(Dispatch(a), b, req, tid) && SameLogs(a, Dispatch(a))
  {
    DispatchInv(a);
    DispatchMoves(a);
    HandleLogs(Dispatch(a), req, tid);
  }

  lemma AliveBetween(states: seq<Kernel>, reqs: seq<Request>, tid: int, i: nat, n: nat)
    requires IsRun(states, reqs) && i <= n <= |reqs|
    requires Alive(states[0], tid) && Alive(states[n], tid)
    ensures Alive(states[i], tid)
  {
    NoIdTwice(states, reqs, 0, i);
    NoIdTwice(states, reqs, i, n);
    assert IdOk(states[0], tid % TASKS);
  }

  lemma {:induction false} RunLogs(states: seq<Kernel>, reqs: seq<Request>, tid: int, n: nat)
    requires IsRun(states, reqs) && n <= |reqs|
    requires Alive(states[0], tid) && Alive(states[n], tid)
    ensures var r := tid % TASKS;
      && states[n].sent[r] == states[0].sent[r] + Mail(states, reqs, tid, n)
      && states[n].got[r] == states[0].got[r] + Inbox(states, reqs, tid, n)
  {
    hide Handle, Dispatch, Inv, CanStep, Succeeds;
    if n > 0 {
      AliveBetween(states, reqs, tid, n - 1, n);
      RunLogs(states, reqs, tid, n - 1);
      assert Round(states, reqs, n - 1);
      StepLogs(states[n - 1], reqs[n - 1], states[n], tid);
    }
  }

  /** Each receive result is the letter sent at the same position; the remaining letters
      are those of the senders blocked in r's queue, in order. */
  ghost predicate Matches(b: Kernel, r: int, mail: seq<Letter>, inbox: seq<Receipt>)
    requires Sized(b) && 0 <= r < TASKS
  {
    var q := b.lists[SenderQ(r)];
    && |mail| == |inbox| + |q|
    && (forall k :: 0 <= k < |inbox| ==> Delivered(mail[k], inbox[k]))
    && (forall j :: 0 <= j < |q| ==>
          && 0 <= q[j] < TASKS && b.tasks[q[j]].state.RecvBlocked?
          && b.tasks[q[j]].req.Some? && b.tasks[q[j]].req.value.Send?
          && mail[|inbox| + j] == Letter(b.tasks[q[j]].id, b.tasks[q[j]].req.value.msg))
  }

  /** Between the creation of a task and any later moment at which it is still alive,
      what its Receive calls returned are the letters sent to it, in the order they
      were sent, once each; the letters not yet received are those of the senders
      queued behind it, in order. */
  lemma FirstInFirstOut(states: seq<Kernel>, reqs: seq<Request>, tid: int, n: nat)
    requires IsRun(states, reqs) && n <= |reqs|
    requires Alive(states[0], tid) && Alive(states[n], tid)
    requires states[0].sent[tid % TASKS] == [] && states[0].got[tid % TASKS] == []
    ensures Matches(states[n], tid % TASKS, Mail(states, reqs, tid, n), Inbox(states, reqs, tid, n))
  {
    RunLogs(states, reqs, tid, n);
    RunInv(states, reqs, n);
    var b, r := states[n], tid % TASKS;
    assert b.sent[r] == Mail(states, reqs, tid, n) && b.got[r] == Inbox(states, reqs, tid, n);
    QueuedMatches(b, r);
  }

  lemma QueuedMatches(b: Kernel, r: int)
    requires Inv(b, {}) && 0 <= r < b.nextFree && !b.tasks[r].state.Zombie?
    ensures Matches(b, r, b.sent[r], b.got[r])
  {
    assert InOrder(b, r);
    var q := b.lists[SenderQ(r)];
    forall j | 0 <= j < |q|
      ensures b.tasks[q[j]].state.RecvBlocked?
    {
      assert q[j] in q;
      assert Home(b, q[j]) == SenderQ(r);
    }
  }

  // ---------- Who unblocks a sender ----------

  /** A task that waits for its reply keeps waiting, untouched, until some task replies to
      its id; it then becomes ready with that reply, cut to its buffer. */
  lemma OnlyReplyUnblocks(a: Kernel, req: Request, b: Kernel, x: int)
    requires Succeeds(a, req, b) && 0 <= x < a.nextFree && a.tasks[x].state.ReplBlocked?
    ensures a.tasks[x].req.Some? && a.tasks[x].req.value.Send?
    ensures
      var t := a.tasks[x];
      if req.Reply? && req.target == t.id then
        b.tasks[x] ==
          t.(state := Ready, req := None,
             result := Replied(|req.reply|, Truncate(req.reply, t.req.value.replyCap)))
      else
        b.tasks[x] == t
  {
    assert RequestOk(a, x, {});
    DispatchInv(a);
    DispatchMoves(a);
    DispatchPlaced(a);
    assert Home(a, x) == -1;
    ReplyBlockedStep(Dispatch(a), req, x);
  }

  lemma ReplyBlockedStep(d: Kernel, req: Request, x: int)
    requires Running(d) && Admissible(d, req) && 0 <= x < d.nextFree && d.tasks[x].state.ReplBlocked?
    ensures CanHandle(d, req)
    ensures d.tasks[x].req.Some? && d.tasks[x].req.value.Send?
    ensures
      var b := Handle(d, req);
      var t := d.tasks[x];
      if req.Reply? && req.target == t.id then
        b.tasks[x] ==
          t.(state := Ready, req := None,
             result := Replied(|req.reply|, Truncate(req.reply, t.req.value.replyCap)))
      else
        b.tasks[x] == t
  {
    HandleInv(d, req);
    assert RequestOk(d, x, {d.active}) && IdOk(d, x);
    match req {
      case Reply(tid, reply) => ReplyExact(d, tid, reply, x);
      case _ => BlockedUntouched(d, req, x);
    }
  }

  lemma ReplyExact(d: Kernel, tid: int, reply: seq<char>, x: int)
    requires Live(d) && CanReply(d, tid) && 0 <= x < d.nextFree && d.tasks[x].state.ReplBlocked? && IdOk(d, x)
    requires d.tasks[x].req.Some? && d.tasks[x].req.value.Send?
    ensures
      var b := ReplyTo(d, tid, reply);
      var t := d.tasks[x];
      if tid == t.id then
        b.tasks[x] == t.(state := Ready, req := None, result := Replied(|reply|, Truncate(reply, t.req.value.replyCap)))
      else
        b.tasks[x] == t
  {
  }

  /** Nothing but a reply touches a task waiting for one. */
  lemma BlockedUntouched(d: Kernel, req: Request, x: int)
    requires Running(d) && Admissible(d, req) && 0 <= x < d.nextFree && d.tasks[x].state.ReplBlocked? && !req.Reply?
    ensures CanHandle(d, req)
    ensures Handle(d, req).tasks[x] == d.tasks[x]
  {
    hide Placed, Letters, Requests, Slots, Ids, HandleInterrupts, CreateTask, SendTo, ReceiveNext, ReplyTo, Await;
    HandleInv(d, req);
    match req {
      case Irq(devices) => IrqMoves(d, devices);
      case MyTid => ReturnMoves(d, d.tasks[d.active].id);
      case MyParentTid =>
        var parent := d.tasks[d.active].parent;
        ReturnMoves(d, if 0 <= parent < TASKS then d.tasks[parent].id else -1);
      case Create(prio) => CreateMoves(d, prio);
      case Send(to, msg, replyCap) => SendMoves(d, to, msg, replyCap);
      case Receive(cap) =>
        if d.lists[SenderQ(d.active)] != [] { HeadSender(d); }
        ReceiveMoves(d, cap);
      case AwaitEvent(e) => AwaitMoves(d, e);
      case Exit => ExitMoves(d);
      case Unknown => RefuseMoves(d);
    }
  }

  // ---------- Send first or Receive first ----------

  /** Tasks s and r are the next two to run, s first in a and r first in b; nothing else
      tells the kernels apart. */
  ghost predicate SwapsHeads(a: Kernel, b: Kernel, p: int, s: int, r: int) {
    && Sized(a) && 0 <= p < PRIORITIES && 0 <= s < TASKS && 0 <= r < TASKS
    && |a.lists[p]| >= 2 && a.lists[p][0] == s && a.lists[p][1] == r
    && (forall i :: p < i < PRIORITIES ==> a.lists[i] == [])
    && b == a.(lists := a.lists[p := [r, s] + a.lists[p][2..]])
  }

  lemma SwapInv(a: Kernel, b: Kernel, p: int, s: int, r: int)
    requires Inv(a, {}) && SwapsHeads(a, b, p, s, r)
    ensures Inv(b, {})
  {
    hide Placed;
    SwapPlaced(a, b, p, s, r);
    LettersKept(a, b, {}, {});
  }

  lemma SwapPlaced(a: Kernel, b: Kernel, p: int, s: int, r: int)
    requires Sized(a) && Placed(a) && SwapsHeads(a, b, p, s, r)
    ensures Placed(b)
  {
    var q, q2 := a.lists[p], b.lists[p];
    assert q == [s, r] + q[2..];
    assert forall x :: x in q2 <==> x in q;
    assert NoDup(q2) by {
      assert forall i :: 2 <= i < |q| ==> q2[i] == q[i];
    }
    assert forall x :: 0 <= x < TASKS ==> Home(b, x) == Home(a, x);
  }

  /** The heads of the top queue are ready tasks of its priority. */
  lemma HeadsReady(a: Kernel, p: int, i: int)
    requires Inv(a, {}) && 0 <= p < PRIORITIES && 0 <= i < |a.lists[p]|
    ensures var t := a.lists[p][i];
      && 0 <= t < a.nextFree && a.tasks[t].state.Ready? && a.tasks[t].priority == p
      && Alive(a, a.tasks[t].id) && a.tasks[t].id % TASKS == t
  {
    var t := a.lists[p][i];
    assert t in a.lists[p] && Home(a, t) == p;
    assert IdOk(a, t) && RequestOk(a, t, {});
  }

  lemma TopIs(lists: seq<seq<int>>, p: int)
    requires |lists| >= PRIORITIES && 0 <= p < PRIORITIES && lists[p] != []
    requires forall i :: p < i < PRIORITIES ==> lists[i] == []
    ensures TopPriority(lists, PRIORITIES - 1) == p
  {
  }

  /** What task r gets from the first of its senders, when s comes last. */
  ghost function FirstLetter(a: Kernel, s: int, r: int, msg: seq<char>): (l: Letter)
    requires Sized(a) && 0 <= s < TASKS && 0 <= r < TASKS
    requires a.lists[SenderQ(r)] != [] ==> 0 <= a.lists[SenderQ(r)][0] < TASKS
  {
    var q := a.lists[SenderQ(r)];
    if q == [] then Letter(a.tasks[s].id, msg)
    else
      var h := a.tasks[q[0]];
      Letter(h.id, if h.req.Some? && h.req.value.Send? then h.req.value.msg else [])
  }

  /** The kernel once s has sent to r and r has received. */
  ghost function Exchanged(a: Kernel, p: int, s: int, r: int, msg: seq<char>, replyCap: nat, cap: nat): (c: Kernel)
    requires Sized(a) && 0 <= p < PRIORITIES && |a.lists[p]| >= 2 && 0 <= s < TASKS && 0 <= r < TASKS
    requires a.lists[SenderQ(r)] != [] ==> 0 <= a.lists[SenderQ(r)][0] < TASKS
    ensures Sized(c)
  {
    var q, tid := a.lists[SenderQ(r)], a.tasks[r].id;
    var l := FirstLetter(a, s, r, msg);
    var result := Received(l.from, Truncate(l.text, cap), Min(|l.text|, cap));
    var tasks := a.tasks[s := a.tasks[s].(state := RecvBlocked, req := Some(Send(tid, msg, replyCap)))];
    var h := (q + [s])[0];
    var tasks2 := tasks[h := tasks[h].(state := ReplBlocked)];
    a.(tasks := tasks2[r := tasks2[r].(state := Ready, req := None, result := result)],
       lists := a.lists[p := a.lists[p][2..] + [r]][SenderQ(r) := (q + [s])[1..]],
       sent := a.sent[r := a.sent[r] + [Letter(a.tasks[s].id, msg)]],
       got := a.got[r := a.got[r] + [Receipt(cap, result)]],
       active := NULL)
  }

  ghost predicate BothReady(a: Kernel, p: int, s: int, r: int) {
    && Inv(a, {}) && Sized(a) && 0 <= p < PRIORITIES && s != r && 0 <= s < a.nextFree && 0 <= r < a.nextFree
    && a.tasks[s].state.Ready? && a.tasks[r].state.Ready? && a.tasks[s].priority == p && a.tasks[r].priority == p
    && Alive(a, a.tasks[r].id) && 0 <= a.tasks[r].id && a.tasks[r].id % TASKS == r
    && (forall i :: p < i < PRIORITIES ==> a.lists[i] == [])
    && (a.lists[SenderQ(r)] != [] ==>
          var h := a.lists[SenderQ(r)][0];
          0 <= h < TASKS && a.tasks[h].state.RecvBlocked? && a.tasks[h].req.Some? && a.tasks[h].req.value.Send?)
  }

  lemma HeadsBothReady(a: Kernel, p: int, s: int, r: int)
    requires Inv(a, {}) && 0 <= p < PRIORITIES && |a.lists[p]| >= 2
    requires {a.lists[p][0], a.lists[p][1]} == {s, r} && s != r
    requires forall i :: p < i < PRIORITIES ==> a.lists[i] == []
    ensures BothReady(a, p, s, r)
  {
    HeadsReady(a, p, 0);
    HeadsReady(a, p, 1);
    var q := a.lists[SenderQ(r)];
    if q != [] {
      HeadMember(q);
      assert Home(a, q[0]) == SenderQ(r) && RequestOk(a, q[0], {});
    }
  }

  /** Task t is at the head of the highest ready queue. */
  ghost predicate NextToRun(a: Kernel, p: int, t: int) {
    && Inv(a, {}) && Sized(a) && 0 <= p < PRIORITIES && a.lists[p] != [] && a.lists[p][0] == t
    && 0 <= t < a.nextFree && a.tasks[t].state.Ready? && a.tasks[t].priority == p
    && (forall i :: p < i < PRIORITIES ==> a.lists[i] == [])
  }

  /** Task s, next to run, finds r not waiting and queues up behind the other senders. */
  ghost function SentTo(a: Kernel, p: int, s: int, r: int, msg: seq<char>, replyCap: nat): (b: Kernel)
    requires NextToRun(a, p, s) && 0 <= r < TASKS
    ensures Sized(b)
  {
    a.(tasks := a.tasks[s := a.tasks[s].(state := RecvBlocked, req := Some(Send(a.tasks[r].id, msg, replyCap)))],
       lists := a.lists[p := a.lists[p][1..]][SenderQ(r) := a.lists[SenderQ(r)] + [s]],
       sent := a.sent[r := a.sent[r] + [Letter(a.tasks[s].id, msg)]],
       active := s)
  }

  /** Task r, which waits to receive, gets the letter of s, next to run. */
  ghost function SentOver(a: Kernel, p: int, s: int, r: int, msg: seq<char>, replyCap: nat, cap: nat): (b: Kernel)
    requires NextToRun(a, p, s) && 0 <= r < TASKS
    ensures Sized(b)
  {
    var text := Truncate(msg, cap);
    var result := Received(a.tasks[s].id, text, |text|);
    var tasks := a.tasks[s := a.tasks[s].(state := ReplBlocked, req := Some(Send(a.tasks[r].id, msg, replyCap)))];
    a.(tasks := tasks[r := tasks[r].(state := Ready, req := None, result := result)],
       lists := a.lists[p := a.lists[p][1..] + [r]],
       sent := a.sent[r := a.sent[r] + [Letter(a.tasks[s].id, msg)]],
       got := a.got[r := a.got[r] + [Receipt(cap, result)]],
       active := s)
  }

  /** Task r, next to run, finds no letter and waits. */
  ghost function NowWaits(a: Kernel, p: int, r: int, cap: nat): (b: Kernel)
    requires NextToRun(a, p, r)
    ensures Sized(b)
  {
    a.(tasks := a.tasks[r := a.tasks[r].(state := SendBlocked, req := Some(Receive(cap)))],
       lists := a.lists[p := a.lists[p][1..]],
       active := r)
  }

  /** Somebody sends to task r. */
  ghost predicate HasLetter(a: Kernel, r: int) {
    && Sized(a) && 0 <= r < TASKS && a.lists[SenderQ(r)] != []
    && var h := a.lists[SenderQ(r)][0];
      0 <= h < TASKS && h != r && a.tasks[h].req.Some? && a.tasks[h].req.value.Send?
  }

  /** Task r, next to run, takes the first letter. */
  ghost function TakesLetter(a: Kernel, p: int, r: int, cap: nat): (b: Kernel)
    requires NextToRun(a, p, r) && HasLetter(a, r)
    ensures Sized(b)
  {
    var q := a.lists[SenderQ(r)];
    var text := Truncate(a.tasks[q[0]].req.value.msg, cap);
    var result := Received(a.tasks[q[0]].id, text, |text|);
    var tasks := a.tasks[q[0] := a.tasks[q[0]].(state := ReplBlocked)];
    a.(tasks := tasks[r := tasks[r].(state := Ready, req := None, result := result)],
       lists := a.lists[p := a.lists[p][1..] + [r]][SenderQ(r) := q[1..]],
       got := a.got[r := a.got[r] + [Receipt(cap, result)]],
       active := r)
  }

  lemma RunsNext(a: Kernel, p: int, t: int)
    requires NextToRun(a, p, t)
    ensures CanDispatch(a) && Running(Dispatch(a)) && TopPriority(a.lists, PRIORITIES - 1) >= 0
    ensures Dispatch(a) ==
      a.(tasks := a.tasks[t := a.tasks[t].(state := Active)], lists := a.lists[p := a.lists[p][1..]], active := t)
    ensures forall tid :: Alive(Dispatch(a), tid) == Alive(a, tid)
  {
    hide Inv, TopPriority;
    TopIs(a.lists, p);
    DispatchInv(a);
  }

  lemma SendRound(a: Kernel, p: int, s: int, r: int, msg: seq<char>, replyCap: nat, cap: nat)
    requires NextToRun(a, p, s) && 0 <= r < TASKS && r != s
    requires Alive(a, a.tasks[r].id) && 0 <= a.tasks[r].id && a.tasks[r].id % TASKS == r
    ensures CanStep(a, Send(a.tasks[r].id, msg, replyCap)) && Dispatch(a).active == s
    ensures !a.tasks[r].state.SendBlocked? ==>
      Step(a, Send(a.tasks[r].id, msg, replyCap)) == SentTo(a, p, s, r, msg, replyCap)
    ensures a.tasks[r].state.SendBlocked? && a.tasks[r].req == Some(Receive(cap)) && a.tasks[r].priority == p ==>
      Step(a, Send(a.tasks[r].id, msg, replyCap)) == SentOver(a, p, s, r, msg, replyCap, cap)
  {
    hide Inv, Alive, TopPriority, Dispatch;
    RunsNext(a, p, s);
    SendInv(Dispatch(a), a.tasks[r].id, msg, replyCap);
  }

  lemma ReceiveRound(a: Kernel, p: int, r: int, cap: nat)
    requires NextToRun(a, p, r) && (a.lists[SenderQ(r)] != [] ==> HasLetter(a, r))
    ensures CanStep(a, Receive(cap)) && Dispatch(a).active == r
    ensures Step(a, Receive(cap)) ==
      if a.lists[SenderQ(r)] == [] then NowWaits(a, p, r, cap) else TakesLetter(a, p, r, cap)
  {
    hide Inv, Alive, TopPriority, Dispatch;
    RunsNext(a, p, r);
    ReceiveInv(Dispatch(a), cap);
  }

  lemma SendFirst(a: Kernel, p: int, s: int, r: int, msg: seq<char>, replyCap: nat, cap: nat)
    requires BothReady(a, p, s, r) && |a.lists[p]| >= 2 && a.lists[p][0] == s && a.lists[p][1] == r
    ensures CanStep(a, Send(a.tasks[r].id, msg, replyCap))
    ensures var b := Step(a, Send(a.tasks[r].id, msg, replyCap));
      && Dispatch(a).active == s && CanStep(b, Receive(cap)) && Dispatch(b).active == r
      && Step(b, Receive(cap)).(active := NULL) == Exchanged(a, p, s, r, msg, replyCap, cap)
  {
    hide Inv, Alive, CanStep, Step, Dispatch, Exchanged, TakesLetter;
    SendRound(a, p, s, r, msg, replyCap, cap);
    var b := SentTo(a, p, s, r, msg, replyCap);
    assert HasLetter(b, r) && NextToRun(b, p, r);
    ReceiveRound(b, p, r, cap);
    TakesIsExchanged(a, b, p, s, r, msg, replyCap, cap);
  }

  lemma TakesIsExchanged(a: Kernel, b: Kernel, p: int, s: int, r: int, msg: seq<char>, replyCap: nat, cap: nat)
    requires BothReady(a, p, s, r) && |a.lists[p]| >= 2 && a.lists[p][0] == s && NextToRun(a, p, s)
    requires b == SentTo(a, p, s, r, msg, replyCap) && NextToRun(b, p, r) && HasLetter(b, r)
    ensures TakesLetter(b, p, r, cap).(active := NULL) == Exchanged(a, p, s, r, msg, replyCap, cap)
  {
    hide Inv, Alive;
    var c, x := TakesLetter(b, p, r, cap), Exchanged(a, p, s, r, msg, replyCap, cap);
    assert a.lists[p][1..][1..] == a.lists[p][2..];
    assert c.lists == x.lists;
    assert c.tasks == x.tasks;
    assert c.got == x.got && c.sent == x.sent;
  }

  lemma ReceiveFirst(a: Kernel, p: int, s: int, r: int, msg: seq<char>, replyCap: nat, cap: nat)
    requires BothReady(a, p, s, r) && |a.lists[p]| >= 2 && a.lists[p][0] == r && a.lists[p][1] == s
    ensures CanStep(a, Receive(cap))
    ensures var b := Step(a, Receive(cap));
      var tid := a.tasks[r].id;
      && Dispatch(a).active == r && CanStep(b, Send(tid, msg, replyCap)) && Dispatch(b).active == s
      && Step(b, Send(tid, msg, replyCap)).(active := NULL) == Exchanged(a, p, s, r, msg, replyCap, cap)
  {
    hide Inv, Alive, CanStep, Step, Dispatch, Exchanged, TakesLetter, NowWaits, SentTo, SentOver;
    ReceiveRound(a, p, r, cap);
    if a.lists[SenderQ(r)] == [] {
      WaitsThenSent(a, p, s, r, msg, replyCap, cap);
      SendRound(NowWaits(a, p, r, cap), p, s, r, msg, replyCap, cap);
    } else {
      TakesThenSent(a, p, s, r, msg, replyCap, cap);
      SendRound(TakesLetter(a, p, r, cap), p, s, r, msg, replyCap, cap);
    }
  }

  /** Nobody else sends to r: it waits, and gets the letter of s. */
  lemma WaitsThenSent(a: Kernel, p: int, s: int, r: int, msg: seq<char>, replyCap: nat, cap: nat)
    requires BothReady(a, p, s, r) && |a.lists[p]| >= 2 && a.lists[p][0] == r && a.lists[p][1] == s
    requires NextToRun(a, p, r) && a.lists[SenderQ(r)] == [] && Inv(NowWaits(a, p, r, cap), {})
    ensures
      var b, tid := NowWaits(a, p, r, cap), a.tasks[r].id;
      && NextToRun(b, p, s) && Alive(b, tid) && b.tasks[r].id == tid && b.tasks[r].priority == p
      && b.tasks[r].state.SendBlocked? && b.tasks[r].req == Some(Receive(cap))
      && SentOver(b, p, s, r, msg, replyCap, cap).(active := NULL) == Exchanged(a, p, s, r, msg, replyCap, cap)
  {
    hide Inv;
    var b := NowWaits(a, p, r, cap);
    assert (a.lists[SenderQ(r)] + [s])[1..] == [];
    assert a.lists[p][1..][1..] == a.lists[p][2..];
    var c, x := SentOver(b, p, s, r, msg, replyCap, cap), Exchanged(a, p, s, r, msg, replyCap, cap);
    assert c.lists == x.lists;
    assert c.tasks == x.tasks;
    assert c.got == x.got && c.sent == x.sent;
  }

  /** Others send to r as well: it takes the first of them, and s queues up. */
  lemma TakesThenSent(a: Kernel, p: int, s: int, r: int, msg: seq<char>, replyCap: nat, cap: nat)
    requires BothReady(a, p, s, r) && |a.lists[p]| >= 2 && a.lists[p][0] == r && a.lists[p][1] == s
    requires NextToRun(a, p, r) && HasLetter(a, r) && Inv(TakesLetter(a, p, r, cap), {})
    ensures
      var b, tid := TakesLetter(a, p, r, cap), a.tasks[r].id;
      && NextToRun(b, p, s) && Alive(b, tid) && b.tasks[r].id == tid && !b.tasks[r].state.SendBlocked?
      && SentTo(b, p, s, r, msg, replyCap).(active := NULL) == Exchanged(a, p, s, r, msg, replyCap, cap)
  {
    hide Inv;
    var b, q := TakesLetter(a, p, r, cap), a.lists[SenderQ(r)];
    assert (q + [s])[1..] == q[1..] + [s];
    assert (a.lists[p][1..] + [r])[1..] == a.lists[p][2..] + [r];
    var c, x := SentTo(b, p, s, r, msg, replyCap), Exchanged(a, p, s, r, msg, replyCap, cap);
    assert c.lists == x.lists;
    assert c.tasks == x.tasks;
    assert c.got == x.got && c.sent == x.sent;
  }

  /** Two tasks are next to run, in one order or in the other; one sends to the other, and
      that one receives.  Two rounds later the kernels are the same but for which of them
      ran last.  When nobody else was queued, the letter has arrived, cut to the room
      offered; otherwise the one that came first has, and the sender is last in the queue. */
  lemma SendReceiveCommute(a: Kernel, b: Kernel, p: int, s: int, r: int, msg: seq<char>, replyCap: nat, cap: nat)
    requires Inv(a, {}) && SwapsHeads(a, b, p, s, r)
    ensures
      var send, receive := Send(a.tasks[r].id, msg, replyCap), Receive(cap);
      && CanStep(a, send) && Dispatch(a).active == s
      && CanStep(b, receive) && Dispatch(b).active == r
      && var a1, b1 := Step(a, send), Step(b, receive);
      && CanStep(a1, receive) && Dispatch(a1).active == r
      && CanStep(b1, send) && Dispatch(b1).active == s
      && var a2, b2 := Step(a1, receive), Step(b1, send);
      && a2.(active := NULL) == b2.(active := NULL)
      && a2.tasks[r].state.Ready?
      && if a.lists[SenderQ(r)] == [] then
           && a2.tasks[r].result == Received(a.tasks[s].id, Truncate(msg, cap), Min(|msg|, cap))
           && a2.tasks[s].state.ReplBlocked? && a2.tasks[s].req == Some(send)
         else
           a2.tasks[s].state.RecvBlocked? && a2.lists[SenderQ(r)] == a.lists[SenderQ(r)][1..] + [s]
  {
    hide Inv, CanStep, Step;
    SwapInv(a, b, p, s, r);
    assert s != r by {
      assert NoDup(a.lists[p]) by {
        ListsNoDup(a, p);
      }
    }
    HeadsBothReady(a, p, s, r);
    HeadsBothReady(b, p, s, r);
    SendFirst(a, p, s, r, msg, replyCap, cap);
    ReceiveFirst(b, p, s, r, msg, replyCap, cap);
    var q := a.lists[SenderQ(r)];
    assert (q + [s])[1..] == if q == [] then [] else q[1..] + [s];
    assert b.lists[p][2..] == a.lists[p][2..];
    assert Exchanged(a, p, s, r, msg, replyCap, cap) == Exchanged(b, p, s, r, msg, replyCap, cap);
  }

  lemma ListsNoDup(a: Kernel, k: int)
    requires Inv(a, {}) && 0 <= k < LISTS
    ensures NoDup(a.lists[k])
  {
  }

  // ---------- Scheduling order ----------

  /** Ready queues only grow at the back while a request is handled. */
  ghost predicate ReadyGrows(a: Kernel, b: Kernel) {
    Sized(a) && Sized(b) && forall p :: 0 <= p < PRIORITIES ==> a.lists[p] <= b.lists[p]
  }

  lemma InterruptGrows(a: Kernel, d: Interrupt)
    requires CanInterrupt(a)
    ensures ReadyGrows(a, HandleInterrupt(a, d))
  {
  }

  lemma {:induction false} InterruptsGrow(a: Kernel, devices: seq<Interrupt>)
    requires CanInterrupt(a)
    ensures ReadyGrows(a, HandleInterrupts(a, devices))
    decreases |devices|
  {
    if devices != [] {
      InterruptGrows(a, devices[0]);
      InterruptsGrow(HandleInterrupt(a, devices[0]), devices[1..]);
    }
  }

  lemma SendGrows(a: Kernel, tid: int, msg: seq<char>, replyCap: nat)
    requires CanSend(a, tid)
    ensures ReadyGrows(a, SendTo(a, tid, msg, replyCap))
  {
  }

  lemma ReceiveGrows(a: Kernel, cap: nat)
    requires CanReceive(a)
    ensures ReadyGrows(a, ReceiveNext(a, cap))
  {
  }

  lemma ReplyGrows(a: Kernel, tid: int, reply: seq<char>)
    requires CanReply(a, tid)
    ensures ReadyGrows(a, ReplyTo(a, tid, reply))
  {
  }

  lemma AwaitGrows(a: Kernel, e: int)
    requires CanAwait(a)
    ensures ReadyGrows(a, Await(a, e))
  {
  }

  lemma CreateGrows(a: Kernel, prio: int)
    requires CanHandle(a, Create(prio))
    ensures ReadyGrows(a, CreateTask(a, prio))
  {
  }

  lemma HandleGrows(a: Kernel, req: Request)
    requires CanHandle(a, req)
    ensures ReadyGrows(a, Handle(a, req))
  {
    hide HandleInterrupts, CreateTask, SendTo, ReceiveNext, ReplyTo, Await;
    match req {
      case Irq(devices) => InterruptsGrow(Requeue(a), devices);
      case Create(prio) => CreateGrows(a, prio);
      case Send(tid, msg, replyCap) => SendGrows(a, tid, msg, replyCap);
      case Receive(cap) => ReceiveGrows(a, cap);
      case Reply(tid, reply) => ReplyGrows(a, tid, reply);
      case AwaitEvent(e) => AwaitGrows(a, e);
      case _ =>
    }
  }

  /** A round takes the head of the highest non-empty ready queue, and otherwise only
      appends to ready queues. */
  lemma RoundQueues(a: Kernel, req: Request, b: Kernel)
    requires Succeeds(a, req, b)
    ensures CanDispatch(a)
    ensures var top := TopPriority(a.lists, PRIORITIES - 1);
      && 0 <= top < PRIORITIES && a.lists[top] != []
      && (forall p :: top < p < PRIORITIES ==> a.lists[p] == [])
      && Dispatch(a).active == a.lists[top][0]
      && (forall p :: 0 <= p < PRIORITIES ==>
            (if p == top then a.lists[p][1..] else a.lists[p]) <= b.lists[p])
  {
    DispatchInv(a);
    HandleInv(Dispatch(a), req);
    HandleGrows(Dispatch(a), req);
    var p := TopPriority(a.lists, PRIORITIES - 1);
    assert Dispatch(a).lists == a.lists[p := a.lists[p][1..]];
  }

  /** The number of rounds from i up to n that ran a task of priority p. */
  ghost function Dispatches(states: seq<Kernel>, reqs: seq<Request>, p: int, i: nat, n: nat): (count: nat)
    requires IsRun(states, reqs) && i <= n <= |reqs|
    decreases n
  {
    if n == i then 0
    else Dispatches(states, reqs, p, i, n - 1) + if TopPriority(states[n - 1].lists, PRIORITIES - 1) == p then 1 else 0
  }

  /** A ready task with k tasks ahead of it in its queue stays ready, moving up by one with
      each dispatch at its priority, and runs at exactly the dispatch after the k-th. */
  lemma {:induction false} RunsAfterExactlyK(states: seq<Kernel>, reqs: seq<Request>, p: int, k: nat, i: nat, n: nat)
    requires IsRun(states, reqs) && i <= n <= |reqs|
    requires 0 <= p < PRIORITIES && k < |states[i].lists[p]|
    requires Dispatches(states, reqs, p, i, n) <= k
    ensures var d := Dispatches(states, reqs, p, i, n);
      var x := states[i].lists[p][k];
      && k - d < |states[n].lists[p]| && states[n].lists[p][k - d] == x
      && (n < |reqs| && TopPriority(states[n].lists, PRIORITIES - 1) == p ==>
            CanDispatch(states[n]) && (d == k ==> Dispatch(states[n]).active == x))
    decreases n
  {
    hide Handle, Inv, Succeeds, CanStep, TopPriority, Dispatch;
    if n > i {
      RunsAfterExactlyK(states, reqs, p, k, i, n - 1);
      assert Round(states, reqs, n - 1);
      RoundQueues(states[n - 1], reqs[n - 1], states[n]);
    }
    if n < |reqs| {
      assert Round(states, reqs, n);
      RoundQueues(states[n], reqs[n], states[n + 1]);
    }
  }
}
