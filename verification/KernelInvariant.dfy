/** The invariant of the abstract kernel, and the proof that every step keeps it. */
module KernelInvariant {
  import opened KernelModel

  ghost predicate NoDup(q: seq<int>) {
    forall i, j :: 0 <= i < j < |q| ==> q[i] != q[j]
  }

  // ---------- The invariant ----------

  /** The list that task x belongs to, read off its descriptor; -1 for none. */
  ghost function Home(a: Kernel, x: int): (k: int)
    requires Sized(a) && 0 <= x < TASKS
  {
    var t := a.tasks[x];
    match t.state
    case Ready => t.priority
    case RecvBlocked =>
      if t.req.Some? && t.req.value.Send? && Alive(a, t.req.value.tid) then SenderQ(t.req.value.tid % TASKS) else -1
    case Zombie => if t.id in a.issued then -1 else FREE
    case _ => -1
  }

  /** Every list holds exactly the tasks whose descriptors say so, once each. */
  ghost predicate Placed(a: Kernel)
    requires Sized(a)
  {
    && (forall k, x {:trigger x in a.lists[k]} :: 0 <= k < LISTS && x in a.lists[k] ==>
          0 <= x < a.nextFree && Home(a, x) == k)
    && (forall x {:trigger Home(a, x)} :: 0 <= x < a.nextFree && 0 <= Home(a, x) < LISTS ==> x in a.lists[Home(a, x)])
    && (forall k {:trigger a.lists[k]} :: 0 <= k < LISTS ==> NoDup(a.lists[k]))
  }

  /** The saved request of task x has the kind its state says. */
  ghost predicate RequestOk(a: Kernel, x: int, moving: set<int>)
    requires Sized(a) && 0 <= x < TASKS
  {
    var t := a.tasks[x];
    && 0 <= t.priority < PRIORITIES
    && (t.state.Ready? ==> t.req == None)
    && (t.state.RecvBlocked? || t.state.ReplBlocked? ==>
          t.req.Some? && t.req.value.Send? && t.req.value.tid in a.issued)
    && (t.state.SendBlocked? && x !in moving ==>
          t.req.Some? && t.req.value.Receive? && a.lists[SenderQ(x)] == [])
    && (t.state.Initialized? ==> x in moving)
    && (t.state.Active? && x !in moving ==>
          t.req.Some? && t.req.value.AwaitEvent? && 0 <= t.req.value.event < EVENTS && a.slots[t.req.value.event] == x)
  }

  /** Tasks in `moving` are being handled by the current step. */
  ghost predicate Requests(a: Kernel, moving: set<int>)
    requires Sized(a)
  {
    forall x {:trigger a.tasks[x]} {:trigger RequestOk(a, x, moving)} :: 0 <= x < a.nextFree ==> RequestOk(a, x, moving)
  }

  ghost predicate SlotOk(a: Kernel, e: int, moving: set<int>)
    requires Sized(a) && 0 <= e < EVENTS
  {
    a.slots[e] != NULL ==>
      && 0 <= a.slots[e] < a.nextFree
      && a.slots[e] !in moving
      && a.tasks[a.slots[e]].state.Active?
      && a.tasks[a.slots[e]].req == Some(AwaitEvent(e))
  }

  ghost predicate Slots(a: Kernel, moving: set<int>)
    requires Sized(a)
  {
    && (forall e {:trigger a.slots[e]} {:trigger SlotOk(a, e, moving)} :: 0 <= e < EVENTS ==> SlotOk(a, e, moving))
    && (a.slots[CLOCK_TICK] != NULL ==> a.ticks == [])
    && (a.slots[UART2_RECEIVE_READY] != NULL ==> a.keys == [])
    && |a.ticks| <= BUFFER_SIZE
    && |a.keys| <= BUFFER_SIZE
  }

  ghost predicate IdOk(a: Kernel, x: int)
    requires Sized(a) && 0 <= x < TASKS
  {
    var t := a.tasks[x];
    && 0 <= t.id <= MAX_INT
    && t.id % TASKS == x
    && (!t.state.Zombie? ==> t.id in a.issued)
    && (a.nextFree < TASKS && !t.state.Zombie? ==> t.id == x)
  }

  /** Ids index their descriptors, live ids have been issued, and no id is issued twice. */
  ghost predicate Ids(a: Kernel)
    requires Sized(a)
  {
    && (forall x {:trigger a.tasks[x]} {:trigger IdOk(a, x)} :: 0 <= x < a.nextFree ==> IdOk(a, x))
    && (forall id :: id in a.issued ==> 0 <= id && id % TASKS < a.nextFree && id <= a.tasks[id % TASKS].id)
    && NoDup(a.issued)
  }

  /** What a receiver got for a letter: the sender's id, the text cut to the room offered,
      and its length. */
  ghost predicate Delivered(l: Letter, g: Receipt) {
    g.result == Received(l.from, Truncate(l.text, g.cap), Min(|l.text|, g.cap))
  }

  /** The letters sent to r are those received, in the same order, and then those
      whose senders are queued. */
  ghost predicate InOrder(a: Kernel, r: int)
    requires Sized(a) && 0 <= r < TASKS
  {
    var q := a.lists[SenderQ(r)];
    && |a.sent[r]| == |a.got[r]| + |q|
    && (forall k :: 0 <= k < |a.got[r]| ==> Delivered(a.sent[r][k], a.got[r][k]))
    && (forall j :: 0 <= j < |q| ==>
          && 0 <= q[j] < TASKS
          && a.tasks[q[j]].req.Some? && a.tasks[q[j]].req.value.Send?
          && a.sent[r][|a.got[r]| + j] == Letter(a.tasks[q[j]].id, a.tasks[q[j]].req.value.msg))
  }

  ghost predicate Letters(a: Kernel)
    requires Sized(a)
  {
    forall r :: 0 <= r < a.nextFree && !a.tasks[r].state.Zombie? ==> InOrder(a, r)
  }

  ghost predicate Inv(a: Kernel, moving: set<int>) {
    Sized(a) && Placed(a) && Requests(a, moving) && Slots(a, moving) && Ids(a) && Letters(a)
  }

  /** The task just dispatched may be handled. */
  ghost predicate Running(a: Kernel) {
    && Inv(a, {a.active})
    && 0 <= a.active < a.nextFree
    && a.tasks[a.active].state.Active?
  }

  // ---------- Lists ----------

  lemma AppendMembers(q: seq<int>, t: int)
    ensures forall x :: x in q + [t] <==> x in q || x == t
    ensures NoDup(q) && t !in q ==> NoDup(q + [t])
  {
    assert forall i :: 0 <= i < |q| ==> q[i] in q;
  }

  lemma TailMembers(q: seq<int>)
    requires q != []
    ensures forall x :: x in q <==> x in q[1..] || x == q[0]
    ensures NoDup(q) ==> NoDup(q[1..]) && q[0] !in q[1..]
  {
    assert q == [q[0]] + q[1..];
  }

  lemma HeadMember(q: seq<int>)
    ensures q != [] ==> q[0] in q
  {
  }

  lemma PushMembers(t: int, q: seq<int>)
    ensures forall x :: x in [t] + q <==> x == t || x in q
    ensures NoDup(q) && t !in q ==> NoDup([t] + q)
  {
    assert forall i :: 0 <= i < |q| ==> q[i] in q;
  }

  /** Changing only tasks in `moved`, none of them to or from a zombie: the homes of
      all other tasks stay. */
  lemma HomesStay(a: Kernel, b: Kernel, moved: set<int>)
    requires Sized(a) && Sized(b)
    requires forall x :: 0 <= x < TASKS && x !in moved ==> b.tasks[x] == a.tasks[x]
    requires forall x :: 0 <= x < TASKS ==>
      b.tasks[x].id == a.tasks[x].id && b.tasks[x].state.Zombie? == a.tasks[x].state.Zombie?
    requires b.nextFree == a.nextFree && b.issued == a.issued
    ensures forall tid :: Alive(a, tid) == Alive(b, tid)
    ensures forall x :: 0 <= x < TASKS && x !in moved ==> Home(b, x) == Home(a, x)
  {
  }

  lemma NotListed(a: Kernel, t: int)
    requires Sized(a) && Placed(a) && 0 <= t < TASKS
    requires a.nextFree <= t || Home(a, t) == -1
    ensures forall k :: 0 <= k < LISTS ==> t !in a.lists[k]
  {
  }

  /** Receivers outside `changed`, in whose queues no moved task waits, keep their letters. */
  lemma LettersKept(a: Kernel, b: Kernel, moved: set<int>, changed: set<int>)
    requires Sized(a) && Sized(b) && Letters(a)
    requires forall x :: 0 <= x < TASKS && x !in moved ==>
      b.tasks[x].id == a.tasks[x].id && b.tasks[x].req == a.tasks[x].req
    requires forall r :: 0 <= r < b.nextFree && !b.tasks[r].state.Zombie? && r !in changed ==>
      && r < a.nextFree && !a.tasks[r].state.Zombie?
      && b.lists[SenderQ(r)] == a.lists[SenderQ(r)] && b.sent[r] == a.sent[r] && b.got[r] == a.got[r]
      && (forall x :: x in moved ==> x !in a.lists[SenderQ(r)])
    requires forall r :: r in changed && 0 <= r < b.nextFree && !b.tasks[r].state.Zombie? ==> InOrder(b, r)
    ensures Letters(b)
  {
    forall r | 0 <= r < b.nextFree && !b.tasks[r].state.Zombie? && r !in changed
      ensures InOrder(b, r)
    {
      assert InOrder(a, r);
      var q := a.lists[SenderQ(r)];
      assert forall j :: 0 <= j < |q| ==> q[j] in q;
    }
  }

  // ---------- Dispatch and set-ready ----------

  lemma DispatchPlaced(a: Kernel)
    requires CanDispatch(a) && Placed(a)
    ensures Placed(Dispatch(a))
    ensures var t := Dispatch(a).active; 0 <= t < a.nextFree && a.tasks[t].state.Ready?
  {
    var p := TopPriority(a.lists, PRIORITIES - 1);
    var b := Dispatch(a);
    HeadMember(a.lists[p]);
    TailMembers(a.lists[p]);
    assert Home(a, b.active) == p;
    HomesStay(a, b, {b.active});
  }

  lemma DispatchLetters(a: Kernel)
    requires CanDispatch(a) && Placed(a) && Letters(a)
    ensures Letters(Dispatch(a))
  {
    DispatchPlaced(a);
    var b := Dispatch(a);
    LettersKept(a, b, {}, {});
  }

  lemma DispatchRequests(a: Kernel)
    requires CanDispatch(a) && Placed(a) && Requests(a, {}) && Slots(a, {}) && Ids(a)
    ensures var b := Dispatch(a); Requests(b, {b.active}) && Slots(b, {b.active}) && Ids(b)
  {
    DispatchPlaced(a);
  }

  lemma DispatchInv(a: Kernel)
    requires Inv(a, {})
    requires TopPriority(a.lists, PRIORITIES - 1) >= 0
    ensures CanDispatch(a)
    ensures Running(Dispatch(a))
  {
    HeadMember(a.lists[TopPriority(a.lists, PRIORITIES - 1)]);
    DispatchPlaced(a);
    DispatchLetters(a);
    DispatchRequests(a);
  }

  /** A task that may be made ready: it is in no list, and is being moved or blocked. */
  ghost predicate Movable(a: Kernel, t: int, moving: set<int>)
  {
    && IsTask(a, t)
    && (t in moving || a.tasks[t].state.SendBlocked? || a.tasks[t].state.ReplBlocked?)
    && var s := a.tasks[t].state;
      s.Active? || s.Initialized? || s.SendBlocked? || s.ReplBlocked?
  }

  lemma SetReadyPlaced(a: Kernel, t: int, moving: set<int>)
    requires Movable(a, t, moving) && Placed(a)
    ensures Placed(SetReady(a, t))
  {
    var b := SetReady(a, t);
    NotListed(a, t);
    AppendMembers(a.lists[a.tasks[t].priority], t);
    HomesStay(a, b, {t});
  }

  lemma SetReadyLetters(a: Kernel, t: int, moving: set<int>)
    requires Movable(a, t, moving) && Placed(a) && Letters(a)
    ensures Letters(SetReady(a, t))
  {
    NotListed(a, t);
    LettersKept(a, SetReady(a, t), {t}, {});
  }

  lemma SetReadyRequests(a: Kernel, t: int, moving: set<int>)
    requires Movable(a, t, moving) && Requests(a, moving) && Slots(a, moving)
    ensures Requests(SetReady(a, t), moving - {t}) && Slots(SetReady(a, t), moving - {t})
  {
  }

  lemma SetReadyIds(a: Kernel, t: int, moving: set<int>)
    requires Movable(a, t, moving) && Ids(a)
    ensures Ids(SetReady(a, t))
  {
  }

  lemma SetReadyInv(a: Kernel, t: int, moving: set<int>)
    requires Inv(a, moving) && Movable(a, t, moving)
    ensures Inv(SetReady(a, t), moving - {t})
  {
    SetReadyPlaced(a, t, moving);
    SetReadyLetters(a, t, moving);
    SetReadyRequests(a, t, moving);
    SetReadyIds(a, t, moving);
  }

  /** The kernels differ in results, in which task is active, and in slots and buffers only. */
  ghost predicate SamePlaces(a: Kernel, b: Kernel) {
    && Sized(a) && Sized(b)
    && b.lists == a.lists && b.nextFree == a.nextFree && b.issued == a.issued && b.sent == a.sent && b.got == a.got
    && forall x :: 0 <= x < TASKS ==>
        && b.tasks[x].state == a.tasks[x].state && b.tasks[x].priority == a.tasks[x].priority
        && b.tasks[x].id == a.tasks[x].id && b.tasks[x].req == a.tasks[x].req
  }

  lemma SamePlaced(a: Kernel, b: Kernel)
    requires SamePlaces(a, b) && Placed(a) && Letters(a)
    ensures Placed(b) && Letters(b)
  {
    assert forall tid :: Alive(a, tid) == Alive(b, tid);
    assert forall x :: 0 <= x < TASKS ==> Home(b, x) == Home(a, x);
    LettersKept(a, b, {}, {});
  }

  lemma SameIds(a: Kernel, b: Kernel)
    requires SamePlaces(a, b) && Ids(a)
    ensures Ids(b)
  {
  }

  lemma SameInv(a: Kernel, b: Kernel, moving: set<int>)
    requires SamePlaces(a, b) && b.slots == a.slots && b.ticks == a.ticks && b.keys == a.keys
    requires Inv(a, moving)
    ensures Inv(b, moving)
  {
    SamePlaced(a, b);
    SameIds(a, b);
  }

  lemma RequeueInv(a: Kernel)
    requires Running(a)
    ensures IsTask(a, a.active)
    ensures Inv(Requeue(a), {})
  {
    SetReadyInv(a, a.active, {a.active});
    assert {a.active} - {a.active} == {};
    SameInv(SetReady(a, a.active), Requeue(a), {});
  }

  lemma ReturnInv(a: Kernel, v: int)
    requires Running(a)
    ensures IsTask(a, a.active)
    ensures Inv(Return(a, v), {})
  {
    SameInv(a, Finish(a, a.active, Value(v)), {a.active});
    RequeueInv(Finish(a, a.active, Value(v)));
  }

  lemma RefuseInv(a: Kernel)
    requires Running(a)
    ensures IsTask(a, a.active)
    ensures Inv(Refuse(a), {})
  {
    SameInv(a, Finish(a, a.active, NoSuchCall), {a.active});
    RequeueInv(Finish(a, a.active, NoSuchCall));
  }

  // ---------- Create and exit ----------

  ghost predicate Priorities(a: Kernel)
    requires Sized(a)
  {
    forall x :: 0 <= x < a.nextFree ==> 0 <= a.tasks[x].priority < PRIORITIES
  }

  ghost predicate Creatable(a: Kernel) {
    Sized(a) && CanCreate(a) && Placed(a) && Ids(a) && Priorities(a)
  }

  /** The id of the next task is new. */
  lemma NewIdUnused(a: Kernel, prio: int)
    requires Creatable(a)
    ensures var (b, t) := NewTask(a, prio);
      && b.tasks[t].id !in a.issued && 0 <= b.tasks[t].id <= MAX_INT && b.tasks[t].id % TASKS == t
      && (a.nextFree < TASKS ==> t == a.nextFree)
      && (a.nextFree == TASKS ==> t in a.lists[FREE] && a.tasks[t].state.Zombie? && Home(a, t) == FREE)
  {
    if a.nextFree == TASKS {
      var t := a.lists[FREE][0];
      HeadMember(a.lists[FREE]);
      assert Home(a, t) == FREE;
      assert a.tasks[t].state.Zombie?;
    }
  }

  /** Only live tasks have senders queued behind them. */
  lemma OwnerLives(a: Kernel, t: int)
    requires Sized(a) && Placed(a) && 0 <= t < TASKS
    requires Priorities(a)
    ensures a.lists[SenderQ(t)] != [] ==> t < a.nextFree && !a.tasks[t].state.Zombie?
  {
    var q := a.lists[SenderQ(t)];
    HeadMember(q);
    if q != [] {
      assert Home(a, q[0]) == SenderQ(t);
    }
  }

  lemma NewTaskHomes(a: Kernel, prio: int, moving: set<int>)
    requires Creatable(a) && Requests(a, moving)
    ensures var (b, t) := NewTask(a, prio);
      Home(b, t) == -1 && forall x :: 0 <= x < a.nextFree && x != t ==> Home(b, x) == Home(a, x)
  {
    NewIdUnused(a, prio);
    var (b, t) := NewTask(a, prio);
    AppendMembers(a.issued, b.tasks[t].id);
    assert forall tid :: tid in a.issued ==> Alive(b, tid) == Alive(a, tid);
  }

  lemma NewTaskPlaced(a: Kernel, prio: int, moving: set<int>)
    requires Creatable(a) && Requests(a, moving)
    ensures Placed(NewTask(a, prio).0)
  {
    NewIdUnused(a, prio);
    var (b, t) := NewTask(a, prio);
    OwnerLives(a, t);
    NewTaskHomes(a, prio, moving);
    if a.nextFree == TASKS {
      TailMembers(a.lists[FREE]);
    }
  }

  lemma NewTaskLetters(a: Kernel, prio: int)
    requires Creatable(a) && Letters(a)
    ensures Letters(NewTask(a, prio).0)
  {
    NewIdUnused(a, prio);
    var (b, t) := NewTask(a, prio);
    assert forall k :: 0 <= k < LISTS && k != FREE ==> t !in a.lists[k];
    LettersKept(a, b, {t}, {t});
  }

  lemma NewTaskIds(a: Kernel, prio: int)
    requires Creatable(a)
    ensures Ids(NewTask(a, prio).0)
  {
    NewIdUnused(a, prio);
    var (b, t) := NewTask(a, prio);
    AppendMembers(a.issued, b.tasks[t].id);
  }

  lemma NewTaskRequests(a: Kernel, prio: int, moving: set<int>)
    requires Creatable(a) && 0 <= prio < PRIORITIES && Requests(a, moving) && Slots(a, moving)
    ensures var (b, t) := NewTask(a, prio);
      Requests(b, moving + {t}) && Slots(b, moving + {t})
  {
    NewIdUnused(a, prio);
    var (b, t) := NewTask(a, prio);
    OwnerLives(a, t);
    AppendMembers(a.issued, b.tasks[t].id);
  }

  lemma NewTaskInv(a: Kernel, prio: int)
    requires Running(a) && CanCreate(a) && IsPriority(prio)
    ensures var (b, t) := NewTask(a, prio);
      && t != a.active && b.active == a.active && b.tasks[a.active] == a.tasks[a.active]
      && Inv(b, {a.active, t}) && b.tasks[t].state.Initialized?
      && b.tasks[t].id !in a.issued && b.issued == a.issued + [b.tasks[t].id]
  {
    NewIdUnused(a, prio);
    NewTaskPlaced(a, prio, {a.active});
    NewTaskLetters(a, prio);
    NewTaskIds(a, prio);
    NewTaskRequests(a, prio, {a.active});
    var t := NewTask(a, prio).1;
    assert {a.active} + {t} == {a.active, t};
  }

  lemma CreateInv(a: Kernel, prio: int)
    requires Running(a) && (IsPriority(prio) ==> CanCreate(a))
    ensures CanHandle(a, Create(prio))
    ensures Inv(CreateTask(a, prio), {})
  {
    hide Placed, Letters, Slots, Ids;
    if IsPriority(prio) {
      NewIdUnused(a, prio);
      NewTaskInv(a, prio);
      var (a1, t) := NewTask(a, prio);
      var a2 := SetParent(a1, t, a.active);
      SameInv(a1, a2, {a.active, t});
      SetReadyInv(a2, t, {a.active, t});
      assert {a.active, t} - {t} == {a.active};
      ReturnInv(SetReady(a2, t), a1.tasks[t].id);
    } else {
      ReturnInv(a, -1);
    }
  }

  ghost predicate Live(a: Kernel) {
    && IsTask(a, a.active)
    && a.tasks[a.active].state.Active?
  }

  /** The next id keeps the index byte; it wraps exactly in the last generation. */
  lemma NextTidExact(id: int)
    requires 0 <= id <= MAX_INT
    ensures NextTid(id) > id <==> id <= MAX_INT - TASKS
    ensures NextTid(id) > id ==> NextTid(id) == id + TASKS && NextTid(id) % TASKS == id % TASKS
  {
  }

  lemma ExitHomes(a: Kernel)
    requires Live(a) && Ids(a)
    ensures var b := ExitTask(a); var t := a.active; var id := a.tasks[t].id;
      && (forall x :: 0 <= x < b.nextFree && x != t ==>
            Home(b, x) == if a.tasks[x].state.RecvBlocked? && Home(a, x) == SenderQ(t) then -1 else Home(a, x))
      && Home(b, t) == if NextTid(id) > id then FREE else -1
  {
    var b := ExitTask(a);
    var t := a.active;
    var id := a.tasks[t].id;
    NextTidExact(id);
    assert NextTid(id) > id ==> NextTid(id) !in a.issued;
    assert forall tid :: Alive(b, tid) <==> Alive(a, tid) && tid % TASKS != t;
  }

  lemma ExitPlaced(a: Kernel)
    requires Live(a) && Ids(a) && Placed(a)
    requires Priorities(a)
    ensures Placed(ExitTask(a))
  {
    NotListed(a, a.active);
    ExitHomes(a);
    PushMembers(a.active, a.lists[FREE]);
  }

  lemma ExitLetters(a: Kernel)
    requires Live(a) && Placed(a) && Letters(a)
    ensures Letters(ExitTask(a))
  {
    NotListed(a, a.active);
    LettersKept(a, ExitTask(a), {a.active}, {});
  }

  lemma ExitIds(a: Kernel)
    requires Live(a) && Ids(a)
    ensures Ids(ExitTask(a))
  {
    var b := ExitTask(a);
    NextTidExact(a.tasks[a.active].id);
    assert forall x :: 0 <= x < a.nextFree && IdOk(a, x) ==> IdOk(b, x);
    forall id | id in b.issued
      ensures 0 <= id && id % TASKS < b.nextFree && id <= b.tasks[id % TASKS].id
    {
      assert id <= a.tasks[id % TASKS].id;
    }
  }

  lemma ExitRequests(a: Kernel)
    requires Live(a) && Requests(a, {a.active}) && Slots(a, {a.active})
    ensures Requests(ExitTask(a), {}) && Slots(ExitTask(a), {})
  {
  }

  lemma ExitInv(a: Kernel)
    requires Running(a)
    ensures IsTask(a, a.active)
    ensures Inv(ExitTask(a), {})
  {
    ExitPlaced(a);
    ExitLetters(a);
    ExitIds(a);
    ExitRequests(a);
  }

  // ---------- Messages ----------

  ghost predicate Queues(a: Kernel, tid: int) {
    Live(a) && Alive(a, tid) && !a.tasks[tid % TASKS].state.SendBlocked?
  }

  lemma SendQueuedPlaced(a: Kernel, tid: int, msg: seq<char>, replyCap: nat)
    requires Queues(a, tid) && Placed(a)
    ensures Placed(SendTo(a, tid, msg, replyCap))
  {
    var b := SendTo(a, tid, msg, replyCap);
    var s := a.active;
    NotListed(a, s);
    AppendMembers(a.lists[SenderQ(tid % TASKS)], s);
    HomesStay(a, b, {s});
    assert Home(b, s) == SenderQ(tid % TASKS);
  }

  lemma SendQueuedLetters(a: Kernel, tid: int, msg: seq<char>, replyCap: nat)
    requires Queues(a, tid) && Placed(a) && Letters(a)
    ensures Letters(SendTo(a, tid, msg, replyCap))
  {
    var b := SendTo(a, tid, msg, replyCap);
    var s, r := a.active, tid % TASKS;
    NotListed(a, s);
    var q := a.lists[SenderQ(r)];
    assert InOrder(a, r);
    assert b.lists[SenderQ(r)] == q + [s];
    assert forall j :: 0 <= j < |q| ==> q[j] in q;
    LettersKept(a, b, {s}, {r});
  }

  lemma SendQueuedRequests(a: Kernel, tid: int, msg: seq<char>, replyCap: nat)
    requires Queues(a, tid) && Requests(a, {a.active}) && Slots(a, {a.active}) && tid in a.issued
    ensures var b := SendTo(a, tid, msg, replyCap); Requests(b, {}) && Slots(b, {})
  {
    var b := SendTo(a, tid, msg, replyCap);
    forall x | 0 <= x < b.nextFree
      ensures RequestOk(b, x, {})
    {
      assert RequestOk(a, x, {a.active});
    }
    assert forall e :: 0 <= e < EVENTS && SlotOk(a, e, {a.active}) ==> SlotOk(b, e, {});
  }

  lemma SendQueuedIds(a: Kernel, tid: int, msg: seq<char>, replyCap: nat)
    requires Queues(a, tid) && Ids(a)
    ensures tid in a.issued
    ensures Ids(SendTo(a, tid, msg, replyCap))
  {
    var b := SendTo(a, tid, msg, replyCap);
    assert IdOk(a, tid % TASKS);
    assert forall x :: 0 <= x < a.nextFree && IdOk(a, x) ==> IdOk(b, x);
  }

  /** Sending to a task that is not waiting: the sender goes to the end of its queue. */
  lemma SendQueuedInv(a: Kernel, tid: int, msg: seq<char>, replyCap: nat)
    requires Running(a) && Queues(a, tid)
    ensures Inv(SendTo(a, tid, msg, replyCap), {})
  {
    SendQueuedPlaced(a, tid, msg, replyCap);
    SendQueuedLetters(a, tid, msg, replyCap);
    SendQueuedIds(a, tid, msg, replyCap);
    SendQueuedRequests(a, tid, msg, replyCap);
  }

  /** Sender and receiver meet: what Deliver does before the receiver becomes ready. */
  ghost function Meet(a: Kernel, s: int, r: int, req: Request, cap: nat): (b: Kernel)
    requires IsTask(a, r) && IsTask(a, s) && req.Send? && s != r
    ensures Sized(b)
  {
    var text := Truncate(req.msg, cap);
    var result := Received(a.tasks[s].id, text, |text|);
    var tasks := a.tasks[r := a.tasks[r].(result := result)];
    a.(tasks := tasks[s := tasks[s].(state := ReplBlocked, req := Some(req))],
       got := a.got[r := a.got[r] + [Receipt(cap, result)]])
  }

  ghost predicate Waits(a: Kernel, tid: int) {
    && Live(a) && Alive(a, tid)
    && var r := tid % TASKS;
      IsTask(a, r) && a.tasks[r].state.SendBlocked? && a.tasks[r].req.Some? && a.tasks[r].req.value.Receive? &&
      a.lists[SenderQ(r)] == []
  }

  ghost function SendMeet(a: Kernel, tid: int, msg: seq<char>, replyCap: nat): (m: Kernel)
    requires Waits(a, tid)
    ensures Sized(m)
  {
    var r := tid % TASKS;
    var c := a.(sent := a.sent[r := a.sent[r] + [Letter(a.tasks[a.active].id, msg)]]);
    Meet(c, a.active, r, Send(tid, msg, replyCap), a.tasks[r].req.value.cap)
  }

  lemma SendMeetPlaced(a: Kernel, tid: int, msg: seq<char>, replyCap: nat)
    requires Waits(a, tid) && Placed(a)
    ensures Placed(SendMeet(a, tid, msg, replyCap))
  {
    var m := SendMeet(a, tid, msg, replyCap);
    NotListed(a, a.active);
    HomesStay(a, m, {a.active, tid % TASKS});
    assert Home(m, a.active) == -1 && Home(m, tid % TASKS) == -1;
  }

  lemma SendMeetLetters(a: Kernel, tid: int, msg: seq<char>, replyCap: nat)
    requires Waits(a, tid) && Placed(a) && Letters(a)
    ensures Letters(SendMeet(a, tid, msg, replyCap))
  {
    var r := tid % TASKS;
    NotListed(a, a.active);
    assert InOrder(a, r);
    LettersKept(a, SendMeet(a, tid, msg, replyCap), {a.active}, {r});
  }

  lemma SendMeetRequests(a: Kernel, tid: int, msg: seq<char>, replyCap: nat)
    requires Waits(a, tid) && Requests(a, {a.active}) && Slots(a, {a.active}) && tid in a.issued
    ensures var m := SendMeet(a, tid, msg, replyCap); Requests(m, {}) && Slots(m, {})
  {
    var m := SendMeet(a, tid, msg, replyCap);
    forall x | 0 <= x < m.nextFree
      ensures RequestOk(m, x, {})
    {
      assert RequestOk(a, x, {a.active});
    }
    assert forall e :: 0 <= e < EVENTS && SlotOk(a, e, {a.active}) ==> SlotOk(m, e, {});
  }

  lemma SendMeetIds(a: Kernel, tid: int, msg: seq<char>, replyCap: nat)
    requires Waits(a, tid) && Ids(a)
    ensures tid in a.issued
    ensures Ids(SendMeet(a, tid, msg, replyCap))
  {
    var m := SendMeet(a, tid, msg, replyCap);
    assert IdOk(a, tid % TASKS);
    assert forall x :: 0 <= x < a.nextFree && IdOk(a, x) ==> IdOk(m, x);
  }

  lemma SendIsMeet(a: Kernel, tid: int, msg: seq<char>, replyCap: nat)
    requires Waits(a, tid)
    ensures CanSend(a, tid)
    ensures var m := SendMeet(a, tid, msg, replyCap);
      && m.tasks[tid % TASKS].state.SendBlocked?
      && IsTask(m, tid % TASKS) && SendTo(a, tid, msg, replyCap) == SetReady(m, tid % TASKS)
  {
    assert SendTo(a, tid, msg, replyCap).tasks == SetReady(SendMeet(a, tid, msg, replyCap), tid % TASKS).tasks;
  }

  /** Sending to a task that waits in Receive: the message is delivered at once. */
  lemma SendDirectInv(a: Kernel, tid: int, msg: seq<char>, replyCap: nat)
    requires Running(a) && Waits(a, tid)
    ensures CanSend(a, tid)
    ensures Inv(SendTo(a, tid, msg, replyCap), {})
  {
    var r := tid % TASKS;
    SendMeetPlaced(a, tid, msg, replyCap);
    SendMeetLetters(a, tid, msg, replyCap);
    SendMeetIds(a, tid, msg, replyCap);
    SendMeetRequests(a, tid, msg, replyCap);
    SendIsMeet(a, tid, msg, replyCap);
    SetReadyInv(SendMeet(a, tid, msg, replyCap), r, {});
    assert {} - {r} == {};
  }

  lemma SendInv(a: Kernel, tid: int, msg: seq<char>, replyCap: nat)
    requires Running(a)
    ensures CanSend(a, tid)
    ensures Inv(SendTo(a, tid, msg, replyCap), {})
  {
    if tid < 0 {
      ReturnInv(a, -1);
    } else if !Alive(a, tid) {
      ReturnInv(a, -2);
    } else if a.tasks[tid % TASKS].state.SendBlocked? {
      SendDirectInv(a, tid, msg, replyCap);
    } else {
      SendQueuedInv(a, tid, msg, replyCap);
    }
  }

  lemma ReceiveBlockPlaced(a: Kernel, cap: nat)
    requires Live(a) && a.lists[SenderQ(a.active)] == [] && Placed(a) && Letters(a)
    ensures Placed(ReceiveNext(a, cap)) && Letters(ReceiveNext(a, cap))
  {
    var b := ReceiveNext(a, cap);
    NotListed(a, a.active);
    HomesStay(a, b, {a.active});
    assert Home(b, a.active) == -1;
    LettersKept(a, b, {a.active}, {});
  }

  lemma ReceiveBlockRequests(a: Kernel, cap: nat)
    requires Live(a) && a.lists[SenderQ(a.active)] == []
    requires Requests(a, {a.active}) && Slots(a, {a.active}) && Ids(a)
    ensures var b := ReceiveNext(a, cap); Requests(b, {}) && Slots(b, {}) && Ids(b)
  {
  }

  /** The first sender in the queue of the running task. */
  ghost predicate HasSender(a: Kernel) {
    && Live(a)
    && a.lists[SenderQ(a.active)] != []
    && var s := a.lists[SenderQ(a.active)][0];
      && s != a.active && IsTask(a, s) && a.tasks[s].state.RecvBlocked?
      && a.tasks[s].req.Some? && a.tasks[s].req.value.Send?
  }

  lemma HeadSender(a: Kernel)
    requires Running(a) && a.lists[SenderQ(a.active)] != []
    ensures HasSender(a)
  {
    HeadMember(a.lists[SenderQ(a.active)]);
    assert Home(a, a.lists[SenderQ(a.active)][0]) == SenderQ(a.active);
  }

  ghost function ReceiveMeet(a: Kernel, cap: nat): (m: Kernel)
    requires HasSender(a)
    ensures Sized(m)
  {
    var r := a.active;
    var q := a.lists[SenderQ(r)];
    Meet(a.(lists := a.lists[SenderQ(r) := q[1..]]), q[0], r, a.tasks[q[0]].req.value, cap)
  }

  lemma ReceiveMeetPlaced(a: Kernel, cap: nat)
    requires HasSender(a) && Placed(a)
    ensures Placed(ReceiveMeet(a, cap))
  {
    var m := ReceiveMeet(a, cap);
    var q := a.lists[SenderQ(a.active)];
    TailMembers(q);
    NotListed(a, a.active);
    HomesStay(a, m, {q[0], a.active});
    assert Home(m, q[0]) == -1 && Home(m, a.active) == -1;
  }

  /** The head of the receiver's queue moves to the end of what it got. */
  lemma HeadDelivered(a: Kernel, m: Kernel, r: int)
    requires Sized(a) && Sized(m) && 0 <= r < TASKS && InOrder(a, r)
    requires a.lists[SenderQ(r)] != [] && m.lists[SenderQ(r)] == a.lists[SenderQ(r)][1..]
    requires forall x :: 0 <= x < TASKS && x in m.lists[SenderQ(r)] ==> m.tasks[x] == a.tasks[x]
    requires m.sent[r] == a.sent[r]
    requires |m.got[r]| == |a.got[r]| + 1 && m.got[r][..|a.got[r]|] == a.got[r]
    requires Delivered(a.sent[r][|a.got[r]|], m.got[r][|a.got[r]|])
    ensures InOrder(m, r)
  {
    var q, tail := a.lists[SenderQ(r)], m.lists[SenderQ(r)];
    forall j | 0 <= j < |tail|
      ensures tail[j] == q[j + 1] && m.tasks[tail[j]] == a.tasks[q[j + 1]]
    {
      assert tail[j] in tail;
    }
    forall k | 0 <= k < |m.got[r]|
      ensures Delivered(m.sent[r][k], m.got[r][k])
    {
      if k < |a.got[r]| {
        assert m.got[r][k] == m.got[r][..|a.got[r]|][k];
      }
    }
  }

  lemma ReceiveMeetLetters(a: Kernel, cap: nat)
    requires HasSender(a) && Placed(a) && Letters(a)
    ensures Letters(ReceiveMeet(a, cap))
  {
    var m := ReceiveMeet(a, cap);
    var r := a.active;
    var q := a.lists[SenderQ(r)];
    assert InOrder(a, r);
    TailMembers(q);
    NotListed(a, r);
    HeadDelivered(a, m, r);
    assert forall k :: 0 <= k < LISTS && k != SenderQ(r) ==> q[0] !in a.lists[k];
    LettersKept(a, m, {q[0]}, {r});
  }

  lemma ReceiveMeetRequests(a: Kernel, cap: nat)
    requires HasSender(a) && Requests(a, {a.active}) && Slots(a, {a.active})
    ensures var m := ReceiveMeet(a, cap); Requests(m, {a.active}) && Slots(m, {a.active})
  {
    var m := ReceiveMeet(a, cap);
    forall x | 0 <= x < m.nextFree
      ensures RequestOk(m, x, {a.active})
    {
      assert RequestOk(a, x, {a.active});
    }
    assert forall e :: 0 <= e < EVENTS && SlotOk(a, e, {a.active}) ==> SlotOk(m, e, {a.active});
  }

  lemma ReceiveMeetIds(a: Kernel, cap: nat)
    requires HasSender(a) && Ids(a)
    ensures Ids(ReceiveMeet(a, cap))
  {
    var m := ReceiveMeet(a, cap);
    assert forall x :: 0 <= x < a.nextFree && IdOk(a, x) ==> IdOk(m, x);
  }

  lemma ReceiveIsMeet(a: Kernel, cap: nat)
    requires HasSender(a)
    ensures CanReceive(a)
    ensures Live(ReceiveMeet(a, cap)) && ReceiveMeet(a, cap).active == a.active
    ensures ReceiveNext(a, cap) == SetReady(ReceiveMeet(a, cap), a.active)
  {
    assert ReceiveNext(a, cap).tasks == SetReady(ReceiveMeet(a, cap), a.active).tasks;
  }

  lemma ReceiveInv(a: Kernel, cap: nat)
    requires Running(a)
    ensures CanReceive(a)
    ensures Inv(ReceiveNext(a, cap), {})
  {
    if a.lists[SenderQ(a.active)] == [] {
      ReceiveBlockPlaced(a, cap);
      ReceiveBlockRequests(a, cap);
    } else {
      HeadSender(a);
      ReceiveMeetPlaced(a, cap);
      ReceiveMeetLetters(a, cap);
      ReceiveMeetRequests(a, cap);
      ReceiveMeetIds(a, cap);
      ReceiveIsMeet(a, cap);
      SetReadyInv(ReceiveMeet(a, cap), a.active, {a.active});
      assert {a.active} - {a.active} == {};
    }
  }

  lemma ReplyOk(a: Kernel, tid: int)
    requires Running(a)
    ensures CanReply(a, tid)
  {
    if ReplyTarget(a, tid) {
      assert RequestOk(a, tid % TASKS, {a.active});
    }
  }

  lemma ReplyInv(a: Kernel, tid: int, reply: seq<char>)
    requires Running(a)
    ensures CanReply(a, tid)
    ensures Inv(ReplyTo(a, tid, reply), {})
  {
    ReplyOk(a, tid);
    if ReplyTarget(a, tid) {
      var s := tid % TASKS;
      var f := Finish(a, s, Replied(|reply|, Truncate(reply, a.tasks[s].req.value.replyCap)));
      SameInv(a, f, {a.active});
      SetReadyInv(f, s, {a.active});
      assert {a.active} - {s} == {a.active};
      ReturnInv(SetReady(f, s), 0);
    } else {
      ReturnInv(a, -1);
      ReturnInv(a, -2);
      ReturnInv(a, -3);
    }
  }

  // ---------- Events ----------

  lemma ClearedRequests(a: Kernel, c: Kernel, e: int)
    requires SamePlaces(a, c) && 0 <= e < EVENTS && a.slots[e] != NULL && c.slots == a.slots[e := NULL]
    requires c.ticks == a.ticks && c.keys == a.keys
    requires Requests(a, {}) && Slots(a, {})
    ensures Requests(c, {a.slots[e]}) && Slots(c, {a.slots[e]})
  {
    var t := a.slots[e];
    assert SlotOk(a, e, {});
    forall x | 0 <= x < c.nextFree
      ensures RequestOk(c, x, {t})
    {
      assert RequestOk(a, x, {});
    }
    assert forall f :: 0 <= f < EVENTS && SlotOk(a, f, {}) ==> SlotOk(c, f, {t});
  }

  lemma WakeInv(a: Kernel, e: int, data: seq<char>)
    requires Inv(a, {}) && 0 <= e < EVENTS
    ensures CanWake(a, e)
    ensures Inv(Wake(a, e, data), {})
    ensures var w := Wake(a, e, data); w.slots == a.slots[e := NULL] && w.ticks == a.ticks && w.keys == a.keys
  {
    if a.slots[e] != NULL {
      var t := a.slots[e];
      var f := Finish(a, t, Event(data));
      var c := f.(slots := f.slots[e := NULL]);
      SamePlaced(a, c);
      SameIds(a, c);
      ClearedRequests(a, c, e);
      SetReadyInv(c, t, {t});
      assert {t} - {t} == {};
      assert Wake(a, e, data) == SetReady(c, t);
    } else {
      assert Wake(a, e, data) == a;
      assert a.slots[e := NULL] == a.slots;
    }
  }

  /** The event buffers may change freely, up to their size, while nobody waits. */
  lemma BuffersInv(a: Kernel, ticks: seq<char>, keys: seq<char>)
    requires Inv(a, {}) && |ticks| <= BUFFER_SIZE && |keys| <= BUFFER_SIZE
    requires a.slots[CLOCK_TICK] != NULL ==> ticks == []
    requires a.slots[UART2_RECEIVE_READY] != NULL ==> keys == []
    ensures Inv(a.(ticks := ticks, keys := keys), {})
  {
    var b := a.(ticks := ticks, keys := keys);
    SamePlaced(a, b);
    SameIds(a, b);
  }

  lemma TimerInv(a: Kernel)
    requires Inv(a, {})
    ensures CanInterrupt(a)
    ensures Inv(HandleInterrupt(a, Timer), {})
  {
    var ticks := Push(a.ticks, ['A']);
    if a.slots[CLOCK_TICK] == NULL {
      BuffersInv(a, ticks, a.keys);
    } else {
      WakeInv(a, CLOCK_TICK, Batch(ticks));
      var w := Wake(a, CLOCK_TICK, Batch(ticks));
      BuffersInv(w, Rest(ticks), a.keys);
      assert HandleInterrupt(a, Timer) == w.(ticks := Rest(ticks), keys := a.keys);
    }
  }

  lemma KeysInv(a: Kernel, text: seq<char>)
    requires Inv(a, {})
    ensures CanInterrupt(a)
    ensures Inv(HandleInterrupt(a, Uart2Receive(text)), {})
  {
    var keys := Push(a.keys, text);
    if a.slots[UART2_RECEIVE_READY] == NULL {
      BuffersInv(a, a.ticks, keys);
    } else {
      WakeInv(a, UART2_RECEIVE_READY, Batch(keys));
      var w := Wake(a, UART2_RECEIVE_READY, Batch(keys));
      BuffersInv(w, a.ticks, Rest(keys));
      assert HandleInterrupt(a, Uart2Receive(text)) == w.(ticks := a.ticks, keys := Rest(keys));
    }
  }

  lemma InterruptInv(a: Kernel, d: Interrupt)
    requires Inv(a, {})
    ensures CanInterrupt(a)
    ensures Inv(HandleInterrupt(a, d), {})
  {
    match d {
      case Timer => TimerInv(a);
      case Uart1Receive(c) => WakeInv(a, UART1_RECEIVE_READY, [c]);
      case Uart1Transmit =>
        WakeInv(a, UART1_SEND_READY_INITIAL, []);
        WakeInv(Wake(a, UART1_SEND_READY_INITIAL, []), UART1_SEND_READY, []);
      case Uart2Receive(text) => KeysInv(a, text);
      case Uart2Transmit => WakeInv(a, UART2_SEND_READY, []);
    }
  }

  lemma {:induction false} InterruptsInv(a: Kernel, devices: seq<Interrupt>)
    requires Inv(a, {})
    ensures CanInterrupt(a)
    ensures Inv(HandleInterrupts(a, devices), {})
    decreases |devices|
  {
    if devices != [] {
      InterruptInv(a, devices[0]);
      InterruptsInv(HandleInterrupt(a, devices[0]), devices[1..]);
    }
  }

  lemma WaitPlaced(a: Kernel, b: Kernel)
    requires Live(a) && Placed(a) && Letters(a) && Sized(b)
    requires b.lists == a.lists && b.nextFree == a.nextFree
    requires b.issued == a.issued && b.sent == a.sent && b.got == a.got
    requires exists req :: b.tasks == a.tasks[a.active := a.tasks[a.active].(req := req)]
    ensures Placed(b) && Letters(b)
  {
    NotListed(a, a.active);
    HomesStay(a, b, {a.active});
    assert Home(b, a.active) == -1;
    LettersKept(a, b, {a.active}, {});
  }

  lemma WaitRequests(a: Kernel, b: Kernel, e: int)
    requires Live(a) && 0 <= e < EVENTS && a.slots[e] == NULL && Sized(b)
    requires Requests(a, {a.active}) && Slots(a, {a.active})
    requires b.tasks == a.tasks[a.active := a.tasks[a.active].(req := Some(AwaitEvent(e)))]
    requires b.slots == a.slots[e := a.active] && b.lists == a.lists && b.nextFree == a.nextFree && b.issued == a.issued
    requires b.ticks == if e == CLOCK_TICK then [] else a.ticks
    requires b.keys == if e == UART2_RECEIVE_READY then [] else a.keys
    ensures Requests(b, {}) && Slots(b, {})
  {
    forall x | 0 <= x < b.nextFree
      ensures RequestOk(b, x, {})
    {
      assert RequestOk(a, x, {a.active});
    }
    assert forall f :: 0 <= f < EVENTS && SlotOk(a, f, {a.active}) ==> SlotOk(b, f, {});
  }

  /** The running task takes slot e. */
  lemma WaitInv(a: Kernel, e: int)
    requires Running(a) && 0 <= e < EVENTS && a.slots[e] == NULL
    ensures var t := a.active;
      var b := a.(tasks := a.tasks[t := a.tasks[t].(req := Some(AwaitEvent(e)))], slots := a.slots[e := t],
                  ticks := if e == CLOCK_TICK then [] else a.ticks,
                  keys := if e == UART2_RECEIVE_READY then [] else a.keys);
      Inv(b, {})
  {
    var t := a.active;
    var b := a.(tasks := a.tasks[t := a.tasks[t].(req := Some(AwaitEvent(e)))], slots := a.slots[e := t],
                ticks := if e == CLOCK_TICK then [] else a.ticks,
                keys := if e == UART2_RECEIVE_READY then [] else a.keys);
    WaitPlaced(a, b);
    WaitRequests(a, b, e);
    assert forall x :: 0 <= x < a.nextFree && IdOk(a, x) ==> IdOk(b, x);
  }

  lemma AwaitInv(a: Kernel, e: int)
    requires Running(a)
    ensures CanAwait(a)
    ensures Inv(Await(a, e), {})
  {
    if e >= EVENTS || e < 0 {
      ReturnInv(a, -1);
    } else if a.slots[e] != NULL {
      ReturnInv(a, -4);
    } else {
      WaitInv(a, e);
      var t := a.active;
      var w := a.(tasks := a.tasks[t := a.tasks[t].(req := Some(AwaitEvent(e)))], slots := a.slots[e := t],
                  ticks := if e == CLOCK_TICK then [] else a.ticks,
                  keys := if e == UART2_RECEIVE_READY then [] else a.keys);
      if e == UART2_RECEIVE_READY && a.keys != [] {
        WakeInv(w, e, Batch(a.keys));
        BuffersInv(Wake(w, e, Batch(a.keys)), a.ticks, Rest(a.keys));
        assert Await(a, e) == Wake(w, e, Batch(a.keys)).(ticks := a.ticks, keys := Rest(a.keys));
      } else if e == CLOCK_TICK && a.ticks != [] {
        WakeInv(w, e, Batch(a.ticks));
        BuffersInv(Wake(w, e, Batch(a.ticks)), Rest(a.ticks), a.keys);
        assert Await(a, e) == Wake(w, e, Batch(a.ticks)).(ticks := Rest(a.ticks), keys := a.keys);
      } else {
        assert Await(a, e) == w;
      }
    }
  }

  // ---------- Whole steps ----------

  /** What the source asserts: a task can be created only while descriptors are left. */
  ghost predicate Admissible(a: Kernel, req: Request) {
    req.Create? && IsPriority(req.prio) ==> Sized(a) && CanCreate(a)
  }

  /** Handling any request of the running task keeps the invariant. */
  lemma HandleInv(a: Kernel, req: Request)
    requires Running(a) && Admissible(a, req)
    ensures CanHandle(a, req)
    ensures Inv(Handle(a, req), {})
  {
    match req {
      case Irq(devices) =>
        RequeueInv(a);
        InterruptsInv(Requeue(a), devices);
      case MyTid => ReturnInv(a, a.tasks[a.active].id);
      case MyParentTid =>
        var parent := a.tasks[a.active].parent;
        ReturnInv(a, if 0 <= parent < TASKS then a.tasks[parent].id else -1);
      case Create(prio) => CreateInv(a, prio);
      case Send(tid, msg, replyCap) => SendInv(a, tid, msg, replyCap);
      case Receive(cap) => ReceiveInv(a, cap);
      case Reply(tid, reply) => ReplyInv(a, tid, reply);
      case AwaitEvent(e) => AwaitInv(a, e);
      case Exit => ExitInv(a);
      case Unknown => RefuseInv(a);
    }
  }
}
