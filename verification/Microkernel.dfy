/** The kernel's data and handlers as the source has them: task descriptors in an
    array, threaded into queues through their link fields.  The ghost field `model` is
    the kernel on plain sequences; every handler does to it what KernelModel says. */
module Microkernel {
  import opened KernelModel
  import opened KernelInvariant
  import opened Links
  import opened KernelRuns
  import opened RingBuffers

  ghost function LiveSet(a: Kernel): (s: set<int>)
    requires Sized(a)
  {
    set r | 0 <= r < a.nextFree && !a.tasks[r].state.Zombie?
  }

  lemma ReadyLive(a: Kernel, t: int)
    requires IsTask(a, t) && !a.tasks[t].state.Zombie?
    ensures LiveSet(SetReady(a, t)) == LiveSet(a)
    ensures SetReady(a, t).lists == if a.tasks[t].state.Ready? then a.lists
      else a.lists[a.tasks[t].priority := a.lists[a.tasks[t].priority] + [t]]
  {
  }

  lemma FinishLive(a: Kernel, t: int, result: Outcome)
    requires Sized(a) && 0 <= t < TASKS
    ensures LiveSet(Finish(a, t, result)) == LiveSet(a)
  {
  }

  lemma DispatchLive(a: Kernel, active: int, sizes: seq<int>)
    requires Inv(a, {}) && CanDispatch(a) && SizesMatch(sizes, a)
    ensures var b := Dispatch(a).(active := active); LiveSet(b) == LiveSet(a) && SizesMatch(sizes, b)
  {
    DispatchMoves(a);
  }

  ghost predicate SizesMatch(sizes: seq<int>, a: Kernel) {
    && Sized(a) && |sizes| == TASKS
    && forall r :: r in LiveSet(a) ==> sizes[r] == |a.lists[SenderQ(r)]|
  }

  lemma EmptyLinked(v: Threads, lists: seq<seq<int>>)
    requires Shaped(v) && lists == seq(LISTS, _ => [])
    requires v.free == NULL && v.highest == -1
    requires forall p :: 0 <= p < PRIORITIES ==> v.front[p] == NULL && v.end[p] == NULL
    ensures Linked(v, lists, {})
  {
    TopBelow(lists, PRIORITIES - 1, -1);
    forall k | Kept(k, {})
      ensures Threaded(v, lists, k)
    {
    }
  }

  lemma EmptyModel(memory: seq<Task>, sizes: seq<int>)
    requires |memory| == TASKS == |sizes|
    ensures var a := EmptyKernel(memory); LiveSet(a) == {} && SizesMatch(sizes, a)
  {
  }

  /** new_task on the threads. */
  ghost function NewThreads(v: Threads, a: Kernel): (w: Threads)
    requires Shaped(v) && Sized(a) && (a.nextFree == TASKS ==> 0 <= v.free < TASKS)
  {
    var t := if a.nextFree < TASKS then a.nextFree else v.free;
    var w := if a.nextFree < TASKS then v.(next := v.next[t := NULL]) else PopFree(v);
    w.(first := w.first[t := NULL], last := w.last[t := NULL])
  }

  /** What new_task does to the fields that are not links. */
  lemma NewTaskFields(a: Kernel, prio: int)
    requires Sized(a) && CanCreate(a)
    ensures var (b, t) := KernelModel.NewTask(a, prio);
      && t == (if a.nextFree < TASKS then a.nextFree else a.lists[FREE][0])
      && b.tasks ==
        a.tasks[t := Task(Initialized, prio, if a.nextFree < TASKS then t else a.tasks[t].id, NULL, None, NoOutcome)]
      && b.nextFree == (if a.nextFree < TASKS then a.nextFree + 1 else a.nextFree)
      && b.active == a.active && b.slots == a.slots && b.ticks == a.ticks && b.keys == a.keys
  {
  }

  lemma NewTaskLinked(v: Threads, a: Kernel, prio: int)
    requires Sized(a) && Linked(v, a.lists, LiveSet(a)) && Creatable(a)
    ensures CanCreate(a) && (a.nextFree == TASKS ==> 0 <= v.free < TASKS && v.free == a.lists[FREE][0])
    ensures var (b, t) := KernelModel.NewTask(a, prio);
      Linked(NewThreads(v, a), b.lists, LiveSet(b)) && Loose(b.lists, t)
  {
    hide TopPriority, Chain, Apart;
    NewIdUnused(a, prio);
    var (b, t) := KernelModel.NewTask(a, prio);
    OwnerLives(a, t);
    assert LiveSet(b) == LiveSet(a) + {t};
    if a.nextFree < TASKS {
      NotListed(a, t);
      LooseLink(v, a.lists, LiveSet(a), t, NULL);
      BornLinked(v.(next := v.next[t := NULL]), a.lists, LiveSet(a), t);
      assert b.lists == a.lists;
    } else {
      PopFreeLinked(v, a.lists, LiveSet(a));
      var lists2 := a.lists[FREE := a.lists[FREE][1..]];
      BornLinked(PopFree(v), lists2, LiveSet(a), t);
      assert b.lists == lists2;
    }
  }

  lemma NewTaskSizes(sizes: seq<int>, a: Kernel, prio: int)
    requires SizesMatch(sizes, a) && Creatable(a)
    ensures CanCreate(a)
    ensures var (b, t) := KernelModel.NewTask(a, prio); SizesMatch(sizes[t := 0], b)
  {
    NewIdUnused(a, prio);
  }

  /** The kernels on the way to a created task. */
  lemma CreateStages(a: Kernel, prio: int)
    requires Running(a) && (IsPriority(prio) ==> CanCreate(a))
    ensures Live(a) && CanHandle(a, Create(prio))
    ensures IsPriority(prio) ==> Creatable(a)
    ensures IsPriority(prio) ==>
      var (a1, t) := KernelModel.NewTask(a, prio);
      var a2 := SetParent(a1, t, a.active);
      && IsTask(a2, t) && a2.tasks[t].state.Initialized?
      && var a3 := SetReady(a2, t);
      && Live(a3) && a3.active == a.active && Loose(a3.lists, a.active) && a3.tasks[t].id == a1.tasks[t].id
      && var a4 := Finish(a3, a.active, Value(a1.tasks[t].id));
      Live(a4) && a4.active == a.active && Loose(a4.lists, a.active) && Requeue(a4) == CreateTask(a, prio)
    ensures !IsPriority(prio) ==>
      var a4 := Finish(a, a.active, Value(-1)); Live(a4) && Requeue(a4) == CreateTask(a, prio)
  {
    hide Placed, Letters, Requests, Slots, Ids;
    RunningLive(a);
    RunningPriorities(a);
    if IsPriority(prio) {
      NewIdUnused(a, prio);
      NewTaskInv(a, prio);
      var (a1, t) := KernelModel.NewTask(a, prio);
      var a2 := SetParent(a1, t, a.active);
      SameInv(a1, a2, {a.active, t});
      SetReadyPlaced(a2, t, {a.active, t});
      NotListed(SetReady(a2, t), a.active);
    }
  }

  lemma ParentLive(a: Kernel, t: int, parent: int, sizes: seq<int>)
    requires Sized(a) && 0 <= t < TASKS && SizesMatch(sizes, a)
    ensures LiveSet(SetParent(a, t, parent)) == LiveSet(a) && SizesMatch(sizes, SetParent(a, t, parent))
  {
    assert LiveSet(SetParent(a, t, parent)) == LiveSet(a);
  }

  lemma ReadySizes(a: Kernel, t: int, sizes: seq<int>)
    requires IsTask(a, t) && !a.tasks[t].state.Zombie? && SizesMatch(sizes, a)
    ensures SizesMatch(sizes, SetReady(a, t))
  {
    ReadyLive(a, t);
  }

  lemma FinishSizes(a: Kernel, t: int, result: Outcome, sizes: seq<int>)
    requires Sized(a) && 0 <= t < TASKS && SizesMatch(sizes, a)
    ensures SizesMatch(sizes, Finish(a, t, result))
  {
    FinishLive(a, t, result);
  }

  lemma RequeueSizes(a: Kernel, sizes: seq<int>)
    requires IsTask(a, a.active) && !a.tasks[a.active].state.Zombie? && SizesMatch(sizes, a)
    ensures SizesMatch(sizes, Requeue(a)) && LiveSet(Requeue(a)) == LiveSet(SetReady(a, a.active))
  {
    ReadySizes(a, a.active, sizes);
    assert LiveSet(Requeue(a)) == LiveSet(SetReady(a, a.active));
  }

  lemma RunningLive(a: Kernel)
    requires Running(a)
    ensures Live(a) && Loose(a.lists, a.active) && Ids(a)
  {
    NotListed(a, a.active);
  }

  lemma RunningPriorities(a: Kernel)
    requires Running(a)
    ensures Priorities(a)
  {
  }

  /** handle_exit on the threads. */
  ghost function ExitThreads(v: Threads, a: Kernel): (w: Threads)
    requires Shaped(v) && IsTask(a, a.active)
  {
    var id := a.tasks[a.active].id;
    if NextTid(id) <= id then v else v.(next := v.next[a.active := v.free], free := a.active)
  }

  lemma ExitLinked(v: Threads, a: Kernel, sizes: seq<int>)
    requires Live(a) && Linked(v, a.lists, LiveSet(a)) && Loose(a.lists, a.active) && SizesMatch(sizes, a)
    ensures var b := ExitTask(a);
      Linked(ExitThreads(v, a), b.lists, LiveSet(b)) && SizesMatch(sizes, b)
  {
    hide Chain, TopPriority, Apart;
    var b := ExitTask(a);
    var t := a.active;
    var lists2 := a.lists[SenderQ(t) := []];
    assert LiveSet(b) == LiveSet(a) - {t};
    DiedLinked(v, a.lists, LiveSet(a), t);
    if NextTid(a.tasks[t].id) > a.tasks[t].id {
      PushLinked(v, lists2, LiveSet(b), t);
    }
  }

  lemma PostedLive(a: Kernel, tid: int, msg: seq<char>, replyCap: nat, sizes: seq<int>)
    requires Live(a) && SizesMatch(sizes, a)
    ensures var b := Posted(a, tid, msg, replyCap); LiveSet(b) == LiveSet(a) && SizesMatch(sizes, b)
  {
    assert LiveSet(Posted(a, tid, msg, replyCap)) == LiveSet(a);
  }

  /** What Deliver changes before the receiver becomes ready. */
  ghost function Delivering(a: Kernel, s: int, r: int): (b: Kernel)
    requires CanDeliver(a, s, r)
    ensures Sized(b) && IsTask(b, r) && Deliver(a, s, r) == SetReady(b, r)
    ensures b.lists == a.lists && b.tasks[r].state == a.tasks[r].state
  {
    var text := Truncate(a.tasks[s].req.value.msg, a.tasks[r].req.value.cap);
    var result := Received(a.tasks[s].id, text, |text|);
    var tasks := a.tasks[r := a.tasks[r].(result := result)];
    a.(tasks := tasks[s := tasks[s].(state := ReplBlocked)],
       got := a.got[r := a.got[r] + [Receipt(a.tasks[r].req.value.cap, result)]])
  }

  lemma DeliveringLive(a: Kernel, s: int, r: int)
    requires CanDeliver(a, s, r) && !a.tasks[s].state.Zombie?
    ensures LiveSet(Delivering(a, s, r)) == LiveSet(a)
  {
  }

  lemma SendRefused(a: Kernel, tid: int, msg: seq<char>, replyCap: nat)
    requires Live(a)
    ensures tid < 0 ==> CanSend(a, tid) && SendTo(a, tid, msg, replyCap) == Return(a, -1)
    ensures tid >= 0 && !Alive(a, tid) ==> CanSend(a, tid) && SendTo(a, tid, msg, replyCap) == Return(a, -2)
  {
  }

  /** When the receiver waits, the letter is delivered; otherwise the sender queues up. */
  lemma SendStages(v: Threads, a: Kernel, tid: int, msg: seq<char>, replyCap: nat, sizes: seq<int>)
    requires Running(a) && Live(a) && Alive(a, tid) && Linked(v, a.lists, LiveSet(a)) && SizesMatch(sizes, a)
    requires v.next[a.active] == NULL && Loose(a.lists, a.active)
    ensures CanSend(a, tid)
    ensures
      var s, r := a.active, tid % TASKS;
      var a1 := Posted(a, tid, msg, replyCap);
      && LiveSet(a1) == LiveSet(a) && r in LiveSet(a) && 0 <= sizes[r]
      && if a1.tasks[r].state.SendBlocked? then
          && CanDeliver(a1, s, r) && Loose(a1.lists, r) && !a1.tasks[s].state.Zombie?
          && SizesMatch(sizes, SendTo(a, tid, msg, replyCap))
          && SendTo(a, tid, msg, replyCap) == Deliver(a1, s, r)
        else
          && (v.first[r] != NULL ==> 0 <= v.last[r] < TASKS)
          && Linked(PushSender(v, r, s), SendTo(a, tid, msg, replyCap).lists, LiveSet(a))
          && SizesMatch(sizes[r := sizes[r] + 1], SendTo(a, tid, msg, replyCap))
          && LiveSet(SendTo(a, tid, msg, replyCap)) == LiveSet(a)
          && SendTo(a, tid, msg, replyCap) == a1.(lists := a1.lists[SenderQ(r) := a1.lists[SenderQ(r)] + [s]])
  {
    hide Chain, Apart, TopPriority, Threaded, Letters, Slots;
    var s, r := a.active, tid % TASKS;
    var a1 := Posted(a, tid, msg, replyCap);
    PostedLive(a, tid, msg, replyCap, sizes);
    if a1.tasks[r].state.SendBlocked? {
      NotListed(a, r);
      DeliveringLive(a1, s, r);
      ReadySizes(Delivering(a1, s, r), r, sizes);
    } else {
      PushSenderLinked(v, a.lists, LiveSet(a), r, s);
      assert LiveSet(SendTo(a, tid, msg, replyCap)) == LiveSet(a);
    }
  }

  ghost function Unqueued(a: Kernel, cap: nat): (b: Kernel)
    requires Sized(a) && 0 <= a.active < TASKS && a.lists[SenderQ(a.active)] != []
    ensures Sized(b)
  {
    var a1 := Listening(a, cap);
    a1.(lists := a1.lists[SenderQ(a.active) := a.lists[SenderQ(a.active)][1..]])
  }

  lemma ReceiveStages(v: Threads, a: Kernel, cap: nat, sizes: seq<int>)
    requires Running(a) && Live(a) && Linked(v, a.lists, LiveSet(a)) && SizesMatch(sizes, a)
    requires Loose(a.lists, a.active)
    ensures CanReceive(a) && a.active in LiveSet(a)
    ensures LiveSet(Listening(a, cap)) == LiveSet(a)
    ensures v.first[a.active] == NULL <==> a.lists[SenderQ(a.active)] == []
    ensures v.first[a.active] == NULL ==>
      ReceiveNext(a, cap) == Listening(a, cap) && SizesMatch(sizes, ReceiveNext(a, cap))
    ensures v.first[a.active] != NULL ==>
      var r, s := a.active, v.first[a.active];
      var a1 := Unqueued(a, cap);
      && 0 <= s < TASKS
      && LiveSet(a1) == LiveSet(a) && Linked(PopSender(v, r), a1.lists, LiveSet(a))
      && CanDeliver(a1, s, r) && Loose(a1.lists, r) && !a1.tasks[s].state.Zombie?
      && ReceiveNext(a, cap) == Deliver(a1, s, r)
      && SizesMatch(sizes[r := sizes[r] - 1], ReceiveNext(a, cap))
  {
    hide Chain, Apart, TopPriority, Threaded, Letters, Slots;
    var r := a.active;
    assert LiveSet(Listening(a, cap)) == LiveSet(a);
    PopSenderLinked(v, a.lists, LiveSet(a), r);
    if v.first[r] != NULL {
      HeadSender(a);
      var a1 := Unqueued(a, cap);
      var s := v.first[r];
      assert LiveSet(a1) == LiveSet(a);
      DeliveringLive(a1, s, r);
      UnqueuedSizes(a, cap, sizes);
      ReadySizes(Delivering(a1, s, r), r, sizes[r := sizes[r] - 1]);
    }
  }

  lemma UnqueuedSizes(a: Kernel, cap: nat, sizes: seq<int>)
    requires HasSender(a) && SizesMatch(sizes, a) && a.active in LiveSet(a)
    ensures SizesMatch(sizes[a.active := sizes[a.active] - 1], Unqueued(a, cap))
  {
    assert LiveSet(Unqueued(a, cap)) == LiveSet(a);
  }

  /** Sender s, blocked on a reply, and the task t that replies to it. */
  ghost predicate CanAnswer(a: Kernel, s: int, t: int) {
    && IsTask(a, s) && IsTask(a, t) && s != t
    && a.tasks[s].state.ReplBlocked? && a.tasks[s].req.Some? && a.tasks[s].req.value.Send?
    && a.tasks[t].state.Active?
    && Loose(a.lists, s) && Loose(a.lists, t)
  }

  ghost function Answered(a: Kernel, s: int, t: int, reply: seq<char>): (b: Kernel)
    requires CanAnswer(a, s, t)
    ensures Sized(b)
  {
    var f := Finish(Finish(a, t, Value(0)), s, Replied(|reply|, Truncate(reply, a.tasks[s].req.value.replyCap)));
    SetReady(SetReady(f, s), t)
  }

  lemma AnsweredSizes(a: Kernel, s: int, t: int, reply: seq<char>, sizes: seq<int>)
    requires CanAnswer(a, s, t) && SizesMatch(sizes, a)
    ensures
      var f := Finish(Finish(a, t, Value(0)), s, Replied(|reply|, Truncate(reply, a.tasks[s].req.value.replyCap)));
      && IsTask(f, s) && f.tasks[s].state.ReplBlocked? && Loose(f.lists, s)
      && var g := SetReady(f, s);
      && IsTask(g, t) && g.tasks[t].state.Active? && Loose(g.lists, t)
      && SizesMatch(sizes, Answered(a, s, t, reply))
  {
    FinishSizes(a, t, Value(0), sizes);
    var f0 := Finish(a, t, Value(0));
    FinishSizes(f0, s, Replied(|reply|, Truncate(reply, a.tasks[s].req.value.replyCap)), sizes);
    var f := Finish(f0, s, Replied(|reply|, Truncate(reply, a.tasks[s].req.value.replyCap)));
    ReadySizes(f, s, sizes);
    ReadySizes(SetReady(f, s), t, sizes);
  }

  ghost function Replying(a: Kernel, tid: int, reply: seq<char>): (b: Kernel)
    requires Sized(a) && 0 <= a.active < TASKS
    ensures Sized(b)
  {
    a.(tasks := a.tasks[a.active := a.tasks[a.active].(req := Some(Reply(tid, reply)))])
  }

  /** A successful reply readies the sender, then the replier, and then the replier once
      more, when it is ready already and last in its queue. */
  lemma ReplyStages(a: Kernel, tid: int, reply: seq<char>, sizes: seq<int>)
    requires Running(a) && Live(a) && ReplyTarget(a, tid) && SizesMatch(sizes, a) && Loose(a.lists, a.active)
    ensures CanReply(a, tid)
    ensures
      var r := Replying(a, tid, reply);
      && CanAnswer(r, tid % TASKS, a.active) && LiveSet(r) == LiveSet(a) && SizesMatch(sizes, r)
      && var b := Answered(r, tid % TASKS, a.active, reply);
      && b.active == a.active && IsTask(b, a.active) && b.tasks[a.active].state.Ready?
      && LastOf(b.lists[b.tasks[a.active].priority]) == a.active
      && Requeue(b) == ReplyTo(a, tid, reply)
  {
    hide SizesMatch;
    ReplyOk(a, tid);
    NotListed(a, tid % TASKS);
    ReplyingSizes(a, tid, reply, sizes);
    var b := Answered(Replying(a, tid, reply), tid % TASKS, a.active, reply);
    assert Requeue(b).tasks == ReplyTo(a, tid, reply).tasks;
  }

  lemma ReplyingSizes(a: Kernel, tid: int, reply: seq<char>, sizes: seq<int>)
    requires Live(a) && SizesMatch(sizes, a)
    ensures var r := Replying(a, tid, reply); LiveSet(r) == LiveSet(a) && SizesMatch(sizes, r)
  {
    assert LiveSet(Replying(a, tid, reply)) == LiveSet(a);
  }

  lemma ReplyRefused(a: Kernel, tid: int, reply: seq<char>)
    requires Live(a) && !ReplyTarget(a, tid)
    ensures CanReply(a, tid)
    ensures ReplyTo(a, tid, reply) == Return(a, if tid < 0 then -1 else if !Alive(a, tid) then -2 else -3)
  {
  }

  lemma StateSaysEmpty(buffer: RingBuffer<char>)
    requires buffer.Valid()
    ensures buffer.state.Empty? <==> buffer.Contents() == []
  {
  }

  /** Pops characters until the buffer is empty or the event message is full. */
  method Drain(buffer: RingBuffer<char>) returns (data: seq<char>)
    requires buffer.Valid()
    modifies buffer
    ensures buffer.Valid()
    ensures data == Batch(old(buffer.Contents())) && buffer.Contents() == Rest(old(buffer.Contents()))
  {
    data := [];
    while !buffer.state.Empty? && |data| < TEXT_EVENTS_LIMIT
      invariant buffer.Valid()
      invariant data + buffer.Contents() == old(buffer.Contents())
      invariant |data| <= TEXT_EVENTS_LIMIT
      decreases TEXT_EVENTS_LIMIT - |data|
    {
      ghost var rest := buffer.Contents();
      var c := buffer.Pop();
      assert data + rest == (data + [c]) + buffer.Contents();
      data := data + [c];
    }
  }

  lemma PushOne(buffer: seq<char>, text: seq<char>, c: char)
    requires |buffer| <= BUFFER_SIZE
    ensures |Push(buffer, text)| <= BUFFER_SIZE && Push(buffer, []) == buffer
    ensures Push(buffer, text + [c]) ==
      if |Push(buffer, text)| == BUFFER_SIZE then Push(buffer, text) else Push(buffer, text) + [c]
  {
    var room := BUFFER_SIZE - |buffer|;
    if |text| < room {
      assert (text + [c])[..|text| + 1] == text + [c];
      assert text[..|text|] == text;
    } else {
      assert (text + [c])[..room] == text[..room];
    }
  }

  /** Buffers the characters that arrived; those that do not fit are lost. */
  method PushAll(buffer: RingBuffer<char>, text: seq<char>)
    requires buffer.Valid() && buffer.size == BUFFER_SIZE && |buffer.Contents()| <= BUFFER_SIZE
    modifies buffer, buffer.storage
    ensures buffer.Valid() && buffer.Contents() == Push(old(buffer.Contents()), text)
  {
    hide RingBuffer.Valid, RingBuffer.Contents, Push;
    ghost var start := buffer.Contents();
    PushOne(start, [], 'A');
    for i := 0 to |text|
      invariant buffer.Valid()
      invariant buffer.Contents() == Push(start, text[..i])
    {
      PushOne(start, text[..i], text[i]);
      var code := buffer.Push(text[i]);
      assert text[..i + 1] == text[..i] + [text[i]];
    }
    assert text[..|text|] == text;
  }

  /** The task waiting in slot e, about to be woken. */
  ghost predicate Wakeable(a: Kernel, e: int) {
    && Sized(a) && 0 <= e < EVENTS
    && IsTask(a, a.slots[e]) && a.tasks[a.slots[e]].state.Active? && Loose(a.lists, a.slots[e])
  }

  lemma SlotWakeable(a: Kernel, e: int)
    requires Inv(a, {}) && 0 <= e < EVENTS && a.slots[e] != NULL
    ensures Wakeable(a, e)
  {
    NotListed(a, a.slots[e]);
  }

  lemma WakeSizes(a: Kernel, e: int, data: seq<char>, sizes: seq<int>)
    requires Wakeable(a, e) && SizesMatch(sizes, a)
    ensures SizesMatch(sizes, Wake(a, e, data))
    ensures var f := Finish(a, a.slots[e], Event(data));
      IsTask(f, a.slots[e]) && f.tasks[a.slots[e]].state.Active? && f.lists == a.lists
      && Wake(a, e, data) == SetReady(f, a.slots[e]).(slots := a.slots[e := NULL])
      && LiveSet(Wake(a, e, data)) == LiveSet(SetReady(f, a.slots[e]))
  {
    var t := a.slots[e];
    FinishSizes(a, t, Event(data), sizes);
    ReadySizes(Finish(a, t, Event(data)), t, sizes);
    assert LiveSet(Wake(a, e, data)) == LiveSet(SetReady(Finish(a, t, Event(data)), t));
  }

  ghost function WithBuffers(a: Kernel, ticks: seq<char>, keys: seq<char>): (b: Kernel)
    requires Sized(a)
    ensures Sized(b)
  {
    a.(ticks := ticks, keys := keys)
  }

  lemma BuffersLive(a: Kernel, ticks: seq<char>, keys: seq<char>, sizes: seq<int>)
    requires SizesMatch(sizes, a)
    ensures var b := WithBuffers(a, ticks, keys); LiveSet(b) == LiveSet(a) && SizesMatch(sizes, b)
  {
    assert LiveSet(WithBuffers(a, ticks, keys)) == LiveSet(a);
  }

  lemma WakeThenRest(a: Kernel)
    requires CanWake(a, CLOCK_TICK) && CanWake(a, UART2_RECEIVE_READY)
    ensures a.slots[CLOCK_TICK] != NULL ==>
      Wake(WithBuffers(a, Rest(a.ticks), a.keys), CLOCK_TICK, Batch(a.ticks)) == WakeTicks(a)
    ensures a.slots[UART2_RECEIVE_READY] != NULL ==>
      Wake(WithBuffers(a, a.ticks, Rest(a.keys)), UART2_RECEIVE_READY, Batch(a.keys)) == WakeKeys(a)
  {
  }

  /** The running task has taken slot e. */
  ghost function Waiting(a: Kernel, e: int): (b: Kernel)
    requires Sized(a) && 0 <= a.active < TASKS && 0 <= e < EVENTS
    ensures Sized(b)
  {
    var t := a.active;
    a.(tasks := a.tasks[t := a.tasks[t].(req := Some(AwaitEvent(e)))], slots := a.slots[e := t])
  }

  lemma AwaitStages(a: Kernel, e: int, sizes: seq<int>)
    requires Running(a) && Live(a) && Loose(a.lists, a.active) && SizesMatch(sizes, a)
    ensures e >= EVENTS || e < 0 ==> Await(a, e) == Return(a, -1)
    ensures 0 <= e < EVENTS && a.slots[e] != NULL ==> Await(a, e) == Return(a, -4)
    ensures 0 <= e < EVENTS && a.slots[e] == NULL ==>
      var w := Waiting(a, e);
      && LiveSet(w) == LiveSet(a) && SizesMatch(sizes, w) && Wakeable(w, e)
      && CanWake(w, CLOCK_TICK) && CanWake(w, UART2_RECEIVE_READY)
      && Await(a, e) == if e == UART2_RECEIVE_READY && w.keys != [] then WakeKeys(w)
        else if e == CLOCK_TICK && w.ticks != [] then WakeTicks(w) else w
  {
    if 0 <= e < EVENTS && a.slots[e] == NULL {
      assert LiveSet(Waiting(a, e)) == LiveSet(a);
    }
  }

  lemma InterruptStages(a: Kernel, sizes: seq<int>)
    requires Inv(a, {}) && SizesMatch(sizes, a)
    ensures CanInterrupt(a)
    ensures forall e :: 0 <= e < EVENTS ==> CanWake(a, e) && (a.slots[e] != NULL ==> Wakeable(a, e))
  {
    forall e | 0 <= e < EVENTS && a.slots[e] != NULL
      ensures Wakeable(a, e)
    {
      SlotWakeable(a, e);
    }
  }

  lemma StepStages(a: Kernel, req: Request)
    requires Inv(a, {}) && CanDispatch(a) && TopPriority(a.lists, PRIORITIES - 1) >= 0
    requires req.Create? && IsPriority(req.prio) ==> CanCreate(a)
    ensures CanStep(a, req) && Running(Dispatch(a)) && Admissible(Dispatch(a), req)
    ensures CanHandle(Dispatch(a), req) && Step(a, req) == Handle(Dispatch(a), req)
    ensures Inv(Step(a, req), {}) && Succeeds(a, req, Step(a, req))
  {
    DispatchInv(a);
    HandleInv(Dispatch(a), req);
  }

  /** The free list pointer tells whether a task can be created. */
  lemma FreeTells(v: Threads, a: Kernel)
    requires Sized(a) && Linked(v, a.lists, LiveSet(a))
    ensures CanCreate(a) <==> a.nextFree < TASKS || v.free != NULL
  {
    assert Threaded(v, a.lists, FREE);
    HeadMember(a.lists[FREE]);
  }

  lemma BootStages(memory: seq<Task>)
    requires |memory| == TASKS
    ensures var e := EmptyKernel(memory);
      && Creatable(e)
      && var (a, t) := KernelModel.NewTask(e, SYSTEM_FIRST);
      t == 0 && IsTask(a, t) && a.tasks[t].state.Initialized?
  {
  }

  lemma ExtendRun(states: seq<Kernel>, reqs: seq<Request>, req: Request, b: Kernel)
    requires IsRun(states, reqs) && Succeeds(states[|reqs|], req, b)
    ensures IsRun(states + [b], reqs + [req])
  {
    var states2, reqs2 := states + [b], reqs + [req];
    forall i: nat | i < |reqs2|
      ensures KernelRuns.Round(states2, reqs2, i)
    {
      if i < |reqs| {
        assert KernelRuns.Round(states, reqs, i);
      }
    }
  }

  class Globals {
    // The task descriptors, with their link fields in arrays of their own.
    const tasks: array<Task>
    const next: array<int>
    const sendQSize: array<int>
    const firstSender: array<int>
    const endSender: array<int>

    // The scheduler's ready queues.
    const front: array<int>
    const end: array<int>
    var highest: int

    // The task waiting for each event, and the event buffers.
    const slots: array<int>
    const clock: RingBuffer<char>
    const uart2: RingBuffer<char>

    var nextFree: int
    var freeList: int
    var active: int

    ghost var model: Kernel

    /** The arrays have the sizes the source gives them, and none is shared. */
    ghost predicate Wired() {
      && tasks.Length == TASKS
      && next.Length == TASKS && sendQSize.Length == TASKS && firstSender.Length == TASKS && endSender.Length == TASKS
      && front.Length == PRIORITIES && end.Length == PRIORITIES && slots.Length == EVENTS
      && next != sendQSize && next != firstSender && next != endSender
      && sendQSize != firstSender && sendQSize != endSender && firstSender != endSender
      && front != end
      && clock != uart2 && clock.storage != uart2.storage
      && clock.size == BUFFER_SIZE && uart2.size == BUFFER_SIZE
    }

    ghost function View(): (v: Threads)
      reads this, next, firstSender, endSender, front, end
    {
      Threads(next[..], firstSender[..], endSender[..], front[..], end[..], freeList, highest)
    }

    /** The data without links is the model's. */
    ghost predicate Mirrors()
      reads this, tasks, slots, clock, clock.storage, uart2, uart2.storage
    {
      && Sized(model)
      && tasks[..] == model.tasks
      && nextFree == model.nextFree
      && active == model.active
      && slots[..] == model.slots
      && clock.Valid() && clock.Contents() == model.ticks
      && uart2.Valid() && uart2.Contents() == model.keys
    }

    /** The links thread the model's lists. */
    ghost predicate Core()
      reads this, tasks, next, firstSender, endSender, front, end, slots, clock, clock.storage, uart2, uart2.storage
    {
      && Wired()
      && Mirrors()
      && Linked(View(), model.lists, LiveSet(model))
    }

    /** send_Q_size of a live task is the length of its sender queue. */
    ghost predicate Counted()
      reads this, sendQSize
    {
      SizesMatch(sendQSize[..], model)
    }

    /** What holds whenever the main loop starts a round. */
    ghost predicate Valid()
      reads this, tasks, next, firstSender, endSender, front, end, sendQSize, slots, clock, clock.storage, uart2,
            uart2.storage
    {
      Core() && Counted() && Inv(model, {})
    }

    // ---------- Initialisation ----------

    /** The memory for the globals, with arbitrary contents. */
    constructor ()
      ensures Wired() && clock.Valid() && uart2.Valid()
      ensures fresh(tasks) && fresh(next) && fresh(firstSender) && fresh(endSender) && fresh(sendQSize)
      ensures fresh(front) && fresh(end) && fresh(slots)
      ensures fresh(clock) && fresh(clock.storage) && fresh(uart2) && fresh(uart2.storage)
    {
      tasks := new Task[TASKS];
      next := new int[TASKS];
      firstSender := new int[TASKS];
      endSender := new int[TASKS];
      sendQSize := new int[TASKS];
      front := new int[PRIORITIES];
      end := new int[PRIORITIES];
      slots := new int[EVENTS];
      var clockMemory := new char[BUFFER_SIZE];
      var uart2Memory := new char[BUFFER_SIZE];
      clock := new RingBuffer<char>(clockMemory);
      uart2 := new RingBuffer<char>(uart2Memory);
    }

    method InitializeScheduler()
      requires Wired()
      modifies this`highest, front, end
      ensures highest == -1
      ensures forall p :: 0 <= p < PRIORITIES ==> front[p] == NULL && end[p] == NULL
    {
      highest := -1;
      for i := 0 to PRIORITIES
        invariant forall p :: 0 <= p < i ==> front[p] == NULL && end[p] == NULL
        modifies front, end
      {
        front[i] := NULL;
        end[i] := NULL;
      }
    }

    method InitializeSizes()
      requires Wired()
      modifies sendQSize
      ensures forall t :: 0 <= t < TASKS ==> sendQSize[t] == 0
    {
      for i := 0 to TASKS
        invariant forall t :: 0 <= t < i ==> sendQSize[t] == 0
        modifies sendQSize
      {
        sendQSize[i] := 0;
      }
    }

    method InitializeEvents()
      requires Wired() && clock.Valid() && uart2.Valid()
      modifies slots, clock, uart2
      ensures clock.Valid() && clock.Contents() == [] && uart2.Valid() && uart2.Contents() == []
      ensures slots[..] == seq(EVENTS, _ => NULL)
    {
      for i := 0 to EVENTS
        invariant forall e :: 0 <= e < i ==> slots[e] == NULL
        modifies slots
      {
        slots[i] := NULL;
      }
      clock.Clear();
      uart2.Clear();
    }

    /** No task exists, no queue holds anything, and nobody waits for an event; the
        descriptors themselves keep whatever was in memory. */
    method InitializeGlobals()
      requires Wired() && clock.Valid() && uart2.Valid()
      modifies this, sendQSize, front, end, slots, clock, uart2
      ensures Core() && Counted()
      ensures model == EmptyKernel(tasks[..])
    {
      hide Linked, LiveSet, SizesMatch, RingBuffer.Valid, RingBuffer.Contents;
      nextFree := 0;
      freeList := NULL;
      active := NULL;
      InitializeSizes();
      InitializeScheduler();
      InitializeEvents();
      model := EmptyKernel(tasks[..]);
      EmptyModel(tasks[..], sendQSize[..]);
      EmptyLinked(View(), model.lists);
    }

    // ---------- Scheduler ----------

    /** The greatest non-empty priority up to start, by looking at the queue heads. */
    method HighestNonEmptyPrior(start: int, ghost lists: seq<seq<int>>) returns (i: int)
      requires -1 <= start < front.Length && |lists| >= front.Length
      requires forall k :: 0 <= k <= start ==> (front[k] == NULL <==> lists[k] == [])
      ensures i == TopPriority(lists, start)
    {
      i := start;
      while i >= 0
        invariant -1 <= i <= start
        invariant TopPriority(lists, start) == TopPriority(lists, i)
      {
        if front[i] != NULL {
          return i;
        }
        i := i - 1;
      }
      return -1;
    }

    /** Puts t at the back of its ready queue.  It clears t's link before it asks whether t
        is ready already, so a task that is ready must be the last of its queue. */
    method SetReady(t: int)
      requires Core() && IsTask(model, t) && !model.tasks[t].state.Zombie?
      requires model.tasks[t].state.Ready? ==> LastOf(model.lists[model.tasks[t].priority]) == t
      requires !model.tasks[t].state.Ready? ==> Loose(model.lists, t)
      modifies this`highest, this`model, tasks, next, front, end
      ensures Core() && model == KernelModel.SetReady(old(model), t)
    {
      hide Linked, Inv, LiveSet, Loose, PushReady, RingBuffer.Valid, RingBuffer.Contents;
      ghost var v, lists, live := View(), model.lists, LiveSet(model);
      ReadyLive(model, t);
      var priority := tasks[t].priority;
      if tasks[t].state.Ready? {
        LastUnlinked(v, lists, live, priority);
      } else {
        PushReadyLinked(v, lists, live, priority, t);
        PushReadyCleared(v, priority, t);
      }
      next[t] := NULL;
      if tasks[t].state.Ready? {
        assert View() == v;
        return;
      }
      AppendReady(priority, t);
      tasks[t] := tasks[t].(req := None, state := Ready);
      model := KernelModel.SetReady(model, t);
    }

    /** Threads t, whose link is cleared, onto the end of a ready queue. */
    method AppendReady(priority: int, t: int)
      requires Wired() && 0 <= priority < PRIORITIES && 0 <= t < TASKS && next[t] == NULL
      requires front[priority] != NULL ==> 0 <= end[priority] < TASKS
      modifies this`highest, next, front, end
      ensures View() == PushReady(old(View()), priority, t)
    {
      if priority > highest {
        highest := priority;
      }
      if front[priority] == NULL {
        front[priority] := t;
        end[priority] := t;
      } else {
        next[end[priority]] := t;
        end[priority] := t;
      }
    }

    /** Takes the task that waits longest at the highest non-empty priority. */
    method Schedule() returns (t: int)
      requires Valid() && highest >= 0
      modifies this`highest, this`model, tasks, next, front, end
      ensures CanDispatch(old(model)) && t == Dispatch(old(model)).active
      ensures Core() && Counted() && model == Dispatch(old(model)).(active := old(active))
      ensures next[t] == NULL && Loose(model.lists, t)
    {
      hide Linked, TopPriority, LiveSet, SizesMatch, RingBuffer.Valid, RingBuffer.Contents, Placed, Letters, Requests,
        Slots, Ids;
      ghost var v, lists, live, a := View(), model.lists, LiveSet(model), model;
      PopReadyLinked(v, lists, live);
      TopIsHighest(v, lists, live);
      DispatchInv(a);
      DispatchLive(a, active, sendQSize[..]);
      t := TakeFront(lists);
      tasks[t] := tasks[t].(state := Active);
      model := Dispatch(model).(active := active);
    }

    /** Unthreads the head of the highest non-empty queue. */
    method TakeFront(ghost lists: seq<seq<int>>) returns (t: int)
      requires Wired() && 0 <= highest < PRIORITIES && 0 <= front[highest] < TASKS
      requires |lists| == LISTS && lists[highest] != []
      requires forall k :: 0 <= k <= highest ==>
        (PopReady(View(), lists, highest).front[k] == NULL <==> lists[highest := lists[highest][1..]][k] == [])
      modifies this`highest, next, front, end
      ensures t == old(front[highest]) && View() == PopReady(old(View()), lists, old(highest))
    {
      hide TopPriority;
      ghost var popped := PopReady(View(), lists, highest);
      var nextPrior := highest;
      t := front[nextPrior];
      front[nextPrior] := next[t];
      next[t] := NULL;
      assert front[..] == popped.front;
      if front[nextPrior] == NULL {
        end[nextPrior] := NULL;
        highest := HighestNonEmptyPrior(nextPrior, lists[nextPrior := lists[nextPrior][1..]]);
      }
    }

    /** A dispatched task is running: handlers may be called. */
    ghost predicate Busy()
      reads this, tasks, next, firstSender, endSender, front, end, sendQSize, slots, clock, clock.storage, uart2,
            uart2.storage
    {
      Core() && Counted() && Running(model) && Live(model) && next[active] == NULL && Loose(model.lists, active)
    }

    // ---------- Results and requeueing ----------

    /** Fills in the request structure of task t. */
    method WriteResult(t: int, result: Outcome)
      requires Core() && Counted() && 0 <= t < TASKS
      modifies this`model, tasks
      ensures Core() && Counted() && model == Finish(old(model), t, result)
    {
      hide Linked, LiveSet, SizesMatch, RingBuffer.Valid, RingBuffer.Contents;
      FinishLive(model, t, result);
      FinishSizes(model, t, result, sendQSize[..]);
      tasks[t] := tasks[t].(result := result);
      model := Finish(model, t, result);
      assert View() == old(View());
    }

    method RequeueActive()
      requires Core() && Counted() && IsTask(model, active) && !model.tasks[active].state.Zombie?
      requires model.tasks[active].state.Ready? ==> LastOf(model.lists[model.tasks[active].priority]) == active
      requires !model.tasks[active].state.Ready? ==> Loose(model.lists, active)
      modifies this`highest, this`model, this`active, tasks, next, front, end
      ensures Core() && Counted() && model == Requeue(old(model))
    {
      hide Linked, LiveSet, SizesMatch, Loose, RingBuffer.Valid, RingBuffer.Contents;
      RequeueSizes(model, sendQSize[..]);
      SetReady(active);
      active := NULL;
      model := model.(active := NULL);
    }

    /** An error return: the code, and back to the ready queue. */
    method ReturnValue(v: int)
      requires Core() && Counted() && Live(model) && Loose(model.lists, active)
      modifies this`highest, this`model, this`active, tasks, next, front, end
      ensures Core() && Counted() && model == Return(old(model), v)
    {
      hide Linked, LiveSet, SizesMatch, Loose, RingBuffer.Valid, RingBuffer.Contents;
      WriteResult(active, Value(v));
      RequeueActive();
    }

    method HandleMyTid()
      requires Core() && Counted()
      requires 0 <= active < TASKS
      modifies this`model, tasks
      ensures Core() && Counted() && model == Finish(old(model), active, Value(old(tasks[active].id)))
    {
      WriteResult(active, Value(tasks[active].id));
    }

    method HandleMyParentTid()
      requires Core() && Counted()
      requires 0 <= active < TASKS
      modifies this`model, tasks
      ensures Core() && Counted()
      ensures var parent := old(tasks[active].parent);
        model == Finish(old(model), active, Value(if 0 <= parent < TASKS then old(model).tasks[parent].id else -1))
    {
      var parent := tasks[active].parent;
      if parent < 0 || parent >= TASKS {
        WriteResult(active, Value(-1));
      } else {
        WriteResult(active, Value(tasks[parent].id));
      }
    }

    // ---------- Task ids ----------

    function ExtractTdIndex(tid: int): (i: int)
      ensures 0 <= i < TASKS
    {
      tid % TASKS
    }

    predicate IsTidValid(tid: int) {
      tid >= 0
    }

    /** True exactly for the ids of live tasks, also while part of the array is unused. */
    predicate IsTidInUse(tid: int)
      requires Wired() && Mirrors() && Ids(model) && tid >= 0
      reads this, tasks, slots, clock, clock.storage, uart2, uart2.storage
      ensures IsTidInUse(tid) <==> Alive(model, tid)
    {
      if nextFree < TASKS && tid >= nextFree then false
      else
        var td := tasks[ExtractTdIndex(tid)];
        if td.id != tid || td.state.Zombie? then false else true
    }

    // ---------- Create and exit ----------

    method Adopt(t: int)
      requires Core() && Counted() && 0 <= t < TASKS
      modifies this`model, tasks
      ensures Core() && Counted() && model == SetParent(old(model), t, active)
    {
      hide Linked, LiveSet, SizesMatch, RingBuffer.Valid, RingBuffer.Contents;
      ParentLive(model, t, active, sendQSize[..]);
      tasks[t] := tasks[t].(parent := active);
      model := SetParent(model, t, active);
      assert View() == old(View());
    }

    method NewTask(priority: int) returns (t: int)
      requires Core() && Counted() && Creatable(model)
      requires 0 <= priority < PRIORITIES
      modifies this`nextFree, this`freeList, this`model, tasks, next, firstSender, endSender, sendQSize
      ensures Core() && Counted()
      ensures (model, t) == KernelModel.NewTask(old(model), priority)
      ensures Loose(model.lists, t)
    {
      hide TopPriority, Linked, Creatable, Loose, LiveSet, SizesMatch, RingBuffer.Valid, RingBuffer.Contents,
        KernelModel.NewTask, NewThreads;
      ghost var v, a := View(), model;
      NewTaskLinked(v, a, priority);
      NewTaskSizes(sendQSize[..], a, priority);
      NewTaskFields(a, priority);
      var id;
      t, id := TakeUnthreaded();
      tasks[t] := Task(Initialized, priority, id, NULL, None, NoOutcome);
      sendQSize[t] := 0;
      model := KernelModel.NewTask(model, priority).0;
    }

    /** Takes a descriptor and empties its sender queue. */
    method TakeUnthreaded() returns (t: int, id: int)
      requires Wired() && Sized(model) && nextFree == model.nextFree && CanCreate(model) && tasks[..] == model.tasks
      requires nextFree == TASKS ==> freeList == model.lists[FREE][0]
      modifies this`nextFree, this`freeList, next, firstSender, endSender
      ensures t == (if old(nextFree) < TASKS then old(nextFree) else old(freeList)) && 0 <= t < TASKS
      ensures id == if old(nextFree) < TASKS then t else tasks[t].id
      ensures nextFree == if old(nextFree) < TASKS then old(nextFree) + 1 else old(nextFree)
      ensures View() == NewThreads(old(View()), model)
    {
      hide RingBuffer.Valid, RingBuffer.Contents;
      t, id := TakeDescriptor();
      firstSender[t] := NULL;
      endSender[t] := NULL;
    }

    /** The next unused descriptor, or else the first of the free list, unlinked. */
    method TakeDescriptor() returns (t: int, id: int)
      requires Wired() && Sized(model) && nextFree == model.nextFree && CanCreate(model) && tasks[..] == model.tasks
      requires nextFree == TASKS ==> freeList == model.lists[FREE][0]
      modifies this`nextFree, this`freeList, next
      ensures t == (if old(nextFree) < TASKS then old(nextFree) else old(freeList)) && 0 <= t < TASKS
      ensures id == if old(nextFree) < TASKS then t else tasks[t].id
      ensures nextFree == if old(nextFree) < TASKS then old(nextFree) + 1 else old(nextFree)
      ensures freeList == if old(nextFree) < TASKS then old(freeList) else old(next[freeList])
      ensures next[..] == old(next[..])[t := NULL]
    {
      hide RingBuffer.Valid, RingBuffer.Contents;
      if nextFree < TASKS {
        t := nextFree;
        nextFree := nextFree + 1;
        id := t;
        next[t] := NULL;
      } else {
        t := freeList;
        id := tasks[t].id;
        freeList := next[freeList];
        next[t] := NULL;
      }
    }

    /** Creates a task when the priority is legal; the caller is requeued afterwards. */
    method HandleCreate(priority: int)
      requires Busy() && (IsPriority(priority) ==> CanCreate(model))
      modifies this`nextFree, this`freeList, this`highest, this`model
      modifies tasks, next, firstSender, endSender, sendQSize, front, end
      ensures Core() && Counted() && Live(model) && active == old(active) && Loose(model.lists, active)
      ensures Requeue(model) == CreateTask(old(model), priority)
    {
      hide Linked, LiveSet, SizesMatch, Inv, Loose, RingBuffer.Valid, RingBuffer.Contents;
      ghost var a := model;
      CreateStages(a, priority);
      if priority >= 0 && priority < PRIORITIES {
        var t := NewTask(priority);
        Adopt(t);
        ReadySizes(model, t, sendQSize[..]);
        SetReady(t);
        WriteResult(active, Value(tasks[t].id));
      } else {
        WriteResult(active, Value(-1));
      }
    }

    /** The running task ends; its descriptor goes to the free list unless its next id
        would wrap. */
    method HandleExit()
      requires Busy()
      modifies this`freeList, this`model, tasks, next
      ensures Core() && Counted() && model == ExitTask(old(model))
    {
      hide Linked, LiveSet, SizesMatch, Inv, Loose, RingBuffer.Valid, RingBuffer.Contents;
      ghost var v := View();
      ExitLinked(v, model, sendQSize[..]);
      tasks[active] := tasks[active].(state := Zombie);
      var taskId := tasks[active].id;
      var newTid := NextTid(taskId);
      if newTid > taskId {
        tasks[active] := tasks[active].(id := newTid);
        next[active] := freeList;
        freeList := active;
      }
      assert View() == ExitThreads(v, model);
      model := ExitTask(model);
    }

    // ---------- Messages ----------

    /** Copies the letter of s to the waiting receiver r, and makes r ready. */
    method ExecuteSendCopy(s: int, r: int)
      requires Core() && CanDeliver(model, s, r)
      requires !model.tasks[s].state.Zombie? && model.tasks[r].state.SendBlocked? && Loose(model.lists, r)
      modifies this`highest, this`model, tasks, next, front, end, sendQSize
      ensures Core() && model == Deliver(old(model), s, r)
      ensures sendQSize[..] == old(sendQSize[..])[r := old(sendQSize[r]) - 1]
    {
      hide Linked, LiveSet, Loose, Deliver, Delivering, RingBuffer.Valid, RingBuffer.Contents;
      DeliveringLive(model, s, r);
      CopyLetter(s, r);
      sendQSize[r] := sendQSize[r] - 1;
      SetReady(r);
    }

    /** Fills in what the receiver gets; the sender now waits for a reply. */
    method CopyLetter(s: int, r: int)
      requires Core() && CanDeliver(model, s, r) && LiveSet(Delivering(model, s, r)) == LiveSet(model)
      modifies this`model, tasks
      ensures Core() && model == Delivering(old(model), s, r)
    {
      hide Linked, LiveSet, Loose, Deliver, RingBuffer.Valid, RingBuffer.Contents;
      var msg := tasks[s].req.value.msg;
      var copyLength := |msg|;
      if copyLength > tasks[r].req.value.cap {
        copyLength := tasks[r].req.value.cap;
      }
      ghost var b := Delivering(model, s, r);
      tasks[r] := tasks[r].(result := Received(tasks[s].id, msg[..copyLength], copyLength));
      tasks[s] := tasks[s].(state := ReplBlocked);
      model := b;
      assert View() == old(View());
    }

    /** Threads sender s onto the end of r's sender queue. */
    method EnqueueSender(s: int, r: int)
      requires Wired() && 0 <= s < TASKS && 0 <= r < TASKS
      requires firstSender[r] != NULL ==> 0 <= endSender[r] < TASKS
      modifies next, firstSender, endSender
      ensures View() == PushSender(old(View()), r, s)
    {
      if firstSender[r] == NULL {
        firstSender[r] := s;
        endSender[r] := s;
        next[s] := NULL;
      } else {
        next[endSender[r]] := s;
        endSender[r] := s;
      }
    }

    /** The running task waits until its letter is received. */
    method BlockSender(tid: int, msg: seq<char>, replyCap: nat)
      requires Core() && 0 <= active < TASKS
      requires LiveSet(Posted(model, tid, msg, replyCap)) == LiveSet(model)
      modifies this`model, tasks
      ensures Core() && model == Posted(old(model), tid, msg, replyCap)
    {
      hide Linked, LiveSet, RingBuffer.Valid, RingBuffer.Contents;
      tasks[active] := tasks[active].(state := RecvBlocked);
      tasks[active] := tasks[active].(req := Some(Send(tid, msg, replyCap)));
      model := Posted(model, tid, msg, replyCap);
      assert View() == old(View());
    }

    /** The part of handle_send for a live receiver r. */
    method Post(r: int, tid: int, msg: seq<char>, replyCap: nat)
      requires Busy() && Alive(model, tid) && r == tid % TASKS
      modifies this`highest, this`model
      modifies tasks, next, firstSender, endSender, sendQSize, front, end
      ensures CanSend(old(model), tid)
      ensures Core() && Counted() && model == SendTo(old(model), tid, msg, replyCap)
    {
      hide Linked, LiveSet, SizesMatch, Inv, Loose, Alive, RingBuffer.Valid, RingBuffer.Contents, PushSender, SendTo,
        Posted, Deliver, CanDeliver, CanSend, Running, ExtractTdIndex;
      ghost var v, a := View(), model;
      SendStages(v, a, tid, msg, replyCap, sendQSize[..]);
      BlockSender(tid, msg, replyCap);
      sendQSize[r] := sendQSize[r] + 1;
      if tasks[r].state.SendBlocked? {
        ExecuteSendCopy(active, r);
        assert sendQSize[..] == old(sendQSize[..]);
      } else {
        EnqueueSender(active, r);
        model := SendTo(a, tid, msg, replyCap);
      }
    }

    method HandleSend(tid: int, msg: seq<char>, replyCap: nat)
      requires Busy()
      modifies this`highest, this`model, this`active
      modifies tasks, next, firstSender, endSender, sendQSize, front, end
      ensures CanSend(old(model), tid)
      ensures Core() && Counted() && model == SendTo(old(model), tid, msg, replyCap)
    {
      hide Linked, LiveSet, SizesMatch, Inv, Loose, Alive, RingBuffer.Valid, RingBuffer.Contents;
      RunningLive(model);
      SendRefused(model, tid, msg, replyCap);
      if !IsTidValid(tid) {
        ReturnValue(-1);
        return;
      }
      if !IsTidInUse(tid) {
        ReturnValue(-2);
        return;
      }
      Post(ExtractTdIndex(tid), tid, msg, replyCap);
    }

    /** Takes the first sender out of r's queue, leaving its own link stale. */
    method DequeueSender(r: int) returns (s: int)
      requires Wired() && 0 <= r < TASKS && 0 <= firstSender[r] < TASKS
      modifies firstSender, endSender
      ensures s == old(firstSender[r]) && View() == PopSender(old(View()), r)
    {
      s := firstSender[r];
      firstSender[r] := next[s];
      if next[s] == NULL {
        endSender[r] := NULL;
      }
    }

    method HandleReceive(cap: nat)
      requires Busy()
      modifies this`highest, this`model
      modifies tasks, next, firstSender, endSender, sendQSize, front, end
      ensures CanReceive(old(model))
      ensures Core() && Counted() && model == ReceiveNext(old(model), cap)
    {
      hide Linked, LiveSet, SizesMatch, Inv, Loose, RingBuffer.Valid, RingBuffer.Contents, PopSender;
      ghost var v, a := View(), model;
      ReceiveStages(v, a, cap, sendQSize[..]);
      tasks[active] := tasks[active].(state := SendBlocked);
      tasks[active] := tasks[active].(req := Some(Receive(cap)));
      model := Listening(a, cap);
      assert View() == v;
      if firstSender[active] == NULL {
        return;
      }
      var sender := DequeueSender(active);
      model := Unqueued(a, cap);
      ExecuteSendCopy(sender, active);
    }

    /** Copies the answer to the sender; the sender becomes ready before the replier. */
    method ExecuteReplyCopy(sender: int, replier: int, reply: seq<char>)
      requires Core() && Counted() && CanAnswer(model, sender, replier)
      modifies this`highest, this`model, tasks, next, front, end
      ensures Core() && Counted() && model == Answered(old(model), sender, replier, reply)
    {
      hide Linked, LiveSet, SizesMatch, Loose, RingBuffer.Valid, RingBuffer.Contents;
      AnsweredSizes(model, sender, replier, reply, sendQSize[..]);
      WriteResult(replier, Value(0));
      var copyLength := tasks[sender].req.value.replyCap;
      if copyLength > |reply| {
        copyLength := |reply|;
      }
      WriteResult(sender, Replied(|reply|, reply[..copyLength]));
      SetReady(sender);
      SetReady(replier);
    }

    /** A reply that names no task waiting for one is refused, and the caller requeued at
        once; otherwise the caller stays active and is ready, last in its queue. */
    method HandleReply(tid: int, reply: seq<char>)
      requires Busy()
      modifies this`highest, this`model, this`active, tasks, next, front, end
      ensures CanReply(old(model), tid) && Core() && Counted()
      ensures active == NULL <==> !ReplyTarget(old(model), tid)
      ensures active == NULL ==> model == ReplyTo(old(model), tid, reply)
      ensures active != NULL ==>
        && IsTask(model, active) && model.tasks[active].state.Ready?
        && LastOf(model.lists[model.tasks[active].priority]) == active
        && Requeue(model) == ReplyTo(old(model), tid, reply)
    {
      hide Linked, LiveSet, SizesMatch, Inv, Loose, Alive, RingBuffer.Valid, RingBuffer.Contents;
      RunningLive(model);
      ghost var a, v := model, View();
      if !ReplyTarget(a, tid) {
        ReplyRefused(a, tid, reply);
      } else {
        ReplyStages(a, tid, reply, sendQSize[..]);
      }
      if !IsTidValid(tid) {
        ReturnValue(-1);
        return;
      }
      if !IsTidInUse(tid) {
        ReturnValue(-2);
        return;
      }
      var sender := ExtractTdIndex(tid);
      if !tasks[sender].state.ReplBlocked? {
        ReturnValue(-3);
        return;
      }
      tasks[active] := tasks[active].(req := Some(Reply(tid, reply)));
      model := Replying(a, tid, reply);
      assert View() == v;
      ExecuteReplyCopy(sender, active, reply);
    }

    // ---------- Events ----------

    /** The task in slot e gets the event data and becomes ready; the slot is cleared. */
    method WakeSlot(e: int, data: seq<char>)
      requires Core() && Counted() && Wakeable(model, e)
      modifies this`highest, this`model, tasks, next, front, end, slots
      ensures Core() && Counted() && model == Wake(old(model), e, data)
    {
      hide Linked, LiveSet, SizesMatch, Loose, RingBuffer.Valid, RingBuffer.Contents;
      ghost var a := model;
      WakeSizes(a, e, data, sendQSize[..]);
      WriteResult(slots[e], Event(data));
      SetReady(slots[e]);
      slots[e] := NULL;
      model := Wake(a, e, data);
    }

    method WakeClock()
      requires Core() && Counted() && Wakeable(model, CLOCK_TICK) && CanWake(model, UART2_RECEIVE_READY)
      modifies this`highest, this`model, tasks, next, front, end, slots, clock
      ensures Core() && Counted() && model == WakeTicks(old(model))
    {
      hide Linked, LiveSet, SizesMatch, Loose;
      ghost var a, v := model, View();
      BuffersLive(a, Rest(a.ticks), a.keys, sendQSize[..]);
      WakeThenRest(a);
      var data := Drain(clock);
      model := WithBuffers(a, Rest(a.ticks), a.keys);
      assert View() == v;
      WakeSlot(CLOCK_TICK, data);
    }

    method WakeUart2()
      requires Core() && Counted() && Wakeable(model, UART2_RECEIVE_READY) && CanWake(model, CLOCK_TICK)
      modifies this`highest, this`model, tasks, next, front, end, slots, uart2
      ensures Core() && Counted() && model == WakeKeys(old(model))
    {
      hide Linked, LiveSet, SizesMatch, Loose;
      ghost var a, v := model, View();
      BuffersLive(a, a.ticks, Rest(a.keys), sendQSize[..]);
      WakeThenRest(a);
      var data := Drain(uart2);
      model := WithBuffers(a, a.ticks, Rest(a.keys));
      assert View() == v;
      WakeSlot(UART2_RECEIVE_READY, data);
    }

    method HandleAwaitEvent(e: int)
      requires Busy()
      modifies this`highest, this`model, this`active, tasks, next, front, end, slots, clock, uart2
      ensures Core() && Counted() && model == Await(old(model), e)
    {
      hide Linked, LiveSet, SizesMatch, Inv, Loose, Await, Wake, WakeTicks, WakeKeys, RingBuffer.Contents;
      RunningLive(model);
      ghost var a, v := model, View();
      AwaitStages(a, e, sendQSize[..]);
      if e >= EVENTS || e < 0 {
        ReturnValue(-1);
        return;
      }
      if slots[e] != NULL {
        ReturnValue(-4);
        return;
      }
      tasks[active] := tasks[active].(req := Some(AwaitEvent(e)));
      slots[e] := active;
      model := Waiting(a, e);
      assert View() == v;
      StateSaysEmpty(clock);
      StateSaysEmpty(uart2);
      if e == UART2_RECEIVE_READY && !uart2.state.Empty? {
        WakeUart2();
      }
      if e == CLOCK_TICK && !clock.state.Empty? {
        WakeClock();
      }
    }

    // ---------- Interrupts ----------

    method HandleInterruptClock()
      requires Core() && Counted() && Inv(model, {})
      modifies this`highest, this`model, tasks, next, front, end, slots, clock, clock.storage
      ensures CanInterrupt(old(model))
      ensures Core() && Counted() && model == HandleInterrupt(old(model), Timer)
    {
      hide Linked, LiveSet, SizesMatch, Loose, Wake, Push, RingBuffer.Contents, RingBuffer.Valid;
      InterruptStages(model, sendQSize[..]);
      PushTick();
      if slots[CLOCK_TICK] != NULL {
        WakeClock();
      }
    }

    /** Another tick goes into the clock's buffer, if there is room. */
    method PushTick()
      requires Core() && Counted() && Inv(model, {})
      modifies this`model, clock, clock.storage
      ensures Core() && Counted()
      ensures model == WithBuffers(old(model), Push(old(model.ticks), ['A']), old(model.keys))
    {
      hide Linked, LiveSet, SizesMatch, Inv, Push;
      ghost var a, v := model, View();
      PushOne(a.ticks, [], 'A');
      var code := clock.Push('A');
      assert [] + ['A'] == ['A'];
      BuffersLive(a, Push(a.ticks, ['A']), a.keys, sendQSize[..]);
      model := WithBuffers(a, Push(a.ticks, ['A']), a.keys);
      assert View() == v;
    }

    /** A UART interrupt without a buffer: the waiting task, if any, gets the data. */
    method WakeIfWaiting(e: int, data: seq<char>)
      requires Core() && Counted() && Inv(model, {}) && 0 <= e < EVENTS
      modifies this`highest, this`model, tasks, next, front, end, slots
      ensures CanWake(old(model), e)
      ensures Core() && Counted() && model == Wake(old(model), e, data)
    {
      hide Linked, LiveSet, SizesMatch, Loose, RingBuffer.Contents, RingBuffer.Valid;
      InterruptStages(model, sendQSize[..]);
      if slots[e] != NULL {
        WakeSlot(e, data);
      }
    }

    method HandleInterruptUart2(text: seq<char>)
      requires Core() && Counted() && Inv(model, {})
      modifies this`highest, this`model, tasks, next, front, end, slots, uart2, uart2.storage
      ensures CanInterrupt(old(model))
      ensures Core() && Counted() && model == HandleInterrupt(old(model), Uart2Receive(text))
    {
      hide Linked, LiveSet, SizesMatch, Loose, Wake, RingBuffer.Contents, RingBuffer.Valid;
      ghost var a, v := model, View();
      InterruptStages(a, sendQSize[..]);
      PushAll(uart2, text);
      BuffersLive(a, a.ticks, Push(a.keys, text), sendQSize[..]);
      model := WithBuffers(a, a.ticks, Push(a.keys, text));
      assert View() == v;
      if slots[UART2_RECEIVE_READY] != NULL {
        WakeUart2();
      }
    }

    method HandleDevice(d: Interrupt)
      requires Core() && Counted() && Inv(model, {})
      modifies this`highest, this`model, tasks, next, front, end, slots, clock, clock.storage, uart2, uart2.storage
      ensures CanInterrupt(old(model))
      ensures Core() && Counted() && Inv(model, {}) && model == HandleInterrupt(old(model), d)
    {
      hide Core, Counted, Inv, Wake, WakeTicks, WakeKeys;
      InterruptInv(model, d);
      match d {
        case Timer => HandleInterruptClock();
        case Uart1Receive(c) => WakeIfWaiting(UART1_RECEIVE_READY, [c]);
        case Uart1Transmit =>
          WakeInv(model, UART1_SEND_READY_INITIAL, []);
          WakeIfWaiting(UART1_SEND_READY_INITIAL, []);
          WakeIfWaiting(UART1_SEND_READY, []);
        case Uart2Receive(text) => HandleInterruptUart2(text);
        case Uart2Transmit => WakeIfWaiting(UART2_SEND_READY, []);
      }
    }

    /** Serves the devices in the order in which the status register shows them. */
    method HandleInterruptsOf(devices: seq<Interrupt>)
      requires Core() && Counted() && Inv(model, {})
      modifies this`highest, this`model, tasks, next, front, end, slots, clock, clock.storage, uart2, uart2.storage
      ensures CanInterrupt(old(model))
      ensures Core() && Counted() && model == HandleInterrupts(old(model), devices)
    {
      hide Core, Counted, Inv, HandleInterrupt, CanInterrupt;
      ghost var a := model;
      InterruptsInv(a, devices);
      var i := 0;
      while i < |devices|
        invariant 0 <= i <= |devices|
        invariant Core() && Counted() && Inv(model, {}) && CanInterrupt(model)
        invariant HandleInterrupts(model, devices[i..]) == HandleInterrupts(a, devices)
      {
        assert devices[i..][1..] == devices[i + 1..];
        InterruptsInv(model, devices[i..]);
        HandleDevice(devices[i]);
        i := i + 1;
      }
    }

    // ---------- The main loop ----------

    method HandleRequest(req: Request)
      requires Busy() && Admissible(model, req)
      modifies this, tasks, next, firstSender, endSender, sendQSize, front, end, slots
      modifies clock, clock.storage, uart2, uart2.storage
      ensures CanHandle(old(model), req)
      ensures Valid() && model == Handle(old(model), req)
    {
      hide Linked, LiveSet, SizesMatch, Inv, Loose, Requeue, RingBuffer.Contents, RingBuffer.Valid;
      ghost var a := model;
      RunningLive(a);
      HandleInv(a, req);
      match req {
        case Irq(devices) =>
          RequeueInv(a);
          RequeueActive();
          HandleInterruptsOf(devices);
        case MyTid =>
          HandleMyTid();
          RequeueActive();
        case MyParentTid =>
          HandleMyParentTid();
          RequeueActive();
        case Create(prio) =>
          HandleCreate(prio);
          RequeueActive();
        case Send(tid, msg, replyCap) => HandleSend(tid, msg, replyCap);
        case Receive(cap) => HandleReceive(cap);
        case Reply(tid, reply) =>
          HandleReply(tid, reply);
          if active != NULL {
            RequeueActive();
          }
        case AwaitEvent(e) => HandleAwaitEvent(e);
        case Exit => HandleExit();
        case Unknown =>
          WriteResult(active, NoSuchCall);
          RequeueActive();
      }
    }

    /** One round: dispatch a task, and handle the request it makes. */
    method RunRound(req: Request)
      requires Valid() && highest != -1
      requires req.Create? && IsPriority(req.prio) ==> nextFree < TASKS || freeList != NULL
      modifies this, tasks, next, firstSender, endSender, sendQSize, front, end, slots
      modifies clock, clock.storage, uart2, uart2.storage
      ensures Valid() && Succeeds(old(model), req, model)
    {
      hide Linked, LiveSet, SizesMatch, Loose, Placed, Letters, Requests, Slots, Ids, TopPriority, Handle, Dispatch,
        RingBuffer.Valid, RingBuffer.Contents;
      ghost var a := model;
      TopIsHighest(View(), a.lists, LiveSet(a));
      FreeTells(View(), a);
      DispatchInv(a);
      DispatchLive(a, active, sendQSize[..]);
      DispatchLive(a, Dispatch(a).active, sendQSize[..]);
      StepStages(a, req);
      var t := Schedule();
      active := t;
      model := Dispatch(a);
      assert model == Dispatch(a).(active := t);
      RunningLive(model);
      HandleRequest(req);
    }

    method InitializeFirstTask()
      requires Core() && Counted() && model == EmptyKernel(tasks[..])
      modifies this`nextFree, this`freeList, this`highest, this`model
      modifies tasks, next, firstSender, endSender, sendQSize, front, end
      ensures Valid() && model == Boot(old(tasks[..]))
    {
      hide Linked, LiveSet, SizesMatch, Loose, RingBuffer.Valid, RingBuffer.Contents;
      ghost var memory := tasks[..];
      BootInv(memory);
      BootStages(memory);
      var t := NewTask(SYSTEM_FIRST);
      ReadySizes(model, t, sendQSize[..]);
      SetReady(t);
    }

    lemma Exhausted()
      requires Valid() && nextFree >= TASKS && freeList == NULL
      ensures Sized(model) && !CanCreate(model)
    {
      FreeTells(View(), model);
    }

    /** Rounds of the main loop on the requests that the running tasks make.  It ends
        early when no task is ready, and before a Create for which no descriptor is
        left, where the source's assertion fails. */
    method MainLoop(reqs: seq<Request>) returns (n: nat, ghost states: seq<Kernel>)
      requires Valid()
      modifies this, tasks, next, firstSender, endSender, sendQSize, front, end, slots
      modifies clock, clock.storage, uart2, uart2.storage
      ensures Valid() && n <= |reqs|
      ensures IsRun(states, reqs[..n]) && states[0] == old(model) && states[n] == model
      ensures n < |reqs| ==> highest == -1 || (reqs[n].Create? && IsPriority(reqs[n].prio) && !CanCreate(model))
    {
      hide Core, Counted, Placed, Letters, Requests, Slots, Ids;
      n := 0;
      states := [model];
      while n < |reqs|
        invariant n <= |reqs| && Valid()
        invariant IsRun(states, reqs[..n]) && states[0] == old(model) && states[n] == model
      {
        if highest == -1 {
          return;
        }
        if reqs[n].Create? && IsPriority(reqs[n].prio) && nextFree >= TASKS && freeList == NULL {
          Exhausted();
          return;
        }
        RunRound(reqs[n]);
        ExtendRun(states, reqs[..n], reqs[n], model);
        assert reqs[..n + 1] == reqs[..n] + [reqs[n]];
        states := states + [model];
        n := n + 1;
      }
    }
  }

  /** The kernel from its start: the globals, the first task, and the main loop. */
  method Start(reqs: seq<Request>) returns (kernel: Globals, n: nat, ghost states: seq<Kernel>)
    ensures kernel.Valid() && Reachable(kernel.model) && n <= |reqs|
    ensures IsRun(states, reqs[..n]) && states[n] == kernel.model
    ensures exists memory :: |memory| == TASKS && states[0] == Boot(memory)
    ensures n < |reqs| ==>
      kernel.highest == -1 || (reqs[n].Create? && IsPriority(reqs[n].prio) && !CanCreate(kernel.model))
  {
    hide Inv, IsRun, Reachable, Boot, Globals.Core, Globals.Counted;
    kernel := new Globals();
    kernel.InitializeGlobals();
    ghost var memory := kernel.tasks[..];
    kernel.InitializeFirstTask();
    n, states := kernel.MainLoop(reqs);
    RunReachable(memory, states, reqs[..n]);
  }

  lemma RunReachable(memory: seq<Task>, states: seq<Kernel>, reqs: seq<Request>)
    requires |memory| == TASKS && IsRun(states, reqs) && states[0] == Boot(memory)
    ensures Reachable(states[|reqs|])
  {
  }
}
