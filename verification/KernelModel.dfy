/** The microkernel on plain values: ready queues, sender queues and the free
    list are sequences, and the task descriptors carry no link fields.  Module
    Microkernel shows that the linked descriptors behave like this. */
module KernelModel {

  const TASKS := 256
  const PRIORITIES := 32
  const EVENTS := 6
  const TEXT_EVENTS_LIMIT := 15
  const BUFFER_SIZE := 2048
  const MAX_INT := 0x7fff_ffff
  const NULL := -1

  // Event numbers.
  const CLOCK_TICK := 0
  const UART1_SEND_READY := 1
  const UART1_RECEIVE_READY := 2
  const UART2_SEND_READY := 3
  const UART2_RECEIVE_READY := 4
  const UART1_SEND_READY_INITIAL := 5

  // All queues of the kernel form one family of lists: list p < 32 is the ready
  // queue of priority p, list 32 + r the sender queue of descriptor r, and the
  // last one the free list.
  const FREE := PRIORITIES + TASKS
  const LISTS := PRIORITIES + TASKS + 1

  function SenderQ(r: int): int {
    PRIORITIES + r
  }

  datatype Option<+T> = None | Some(value: T)

  datatype TaskState = Initialized | Active | Ready | Zombie | RecvBlocked | SendBlocked | ReplBlocked

  datatype Interrupt =
    | Timer
    | Uart1Receive(c: char)
    | Uart1Transmit
    | Uart2Receive(text: seq<char>)
    | Uart2Transmit

  /** A trap into the kernel, with the parameters of its request structure. */
  datatype Request =
    | Irq(devices: seq<Interrupt>)
    | MyTid
    | MyParentTid
    | Create(prio: int)
    | Send(tid: int, msg: seq<char>, replyCap: nat)
    | Receive(cap: nat)
    | Reply(target: int, reply: seq<char>)
    | AwaitEvent(event: int)
    | Exit
    // A call number the kernel does not know, as that of Pass: it is overwritten with -1.
    | Unknown

  /** What the kernel has last written into a task's request structure and buffers. */
  datatype Outcome =
    | NoOutcome
    | Value(v: int)
    | Received(from: int, text: seq<char>, len: int)
    | Replied(len: int, answer: seq<char>)
    | Event(data: seq<char>)
    // The number of the call itself is overwritten, and no result is given.
    | NoSuchCall

  datatype Task = Task(state: TaskState, priority: int, id: int, parent: int, req: Option<Request>, result: Outcome)

  datatype Letter = Letter(from: int, text: seq<char>)

  /** What a Receive returned, and the room that the receiver had offered. */
  datatype Receipt = Receipt(cap: nat, result: Outcome)

  /** The kernel state.  `issued` lists every task id ever handed out; `sent[r]` and
      `got[r]` list the messages sent to, and received by, the present owner of
      descriptor r. */
  datatype Kernel = Kernel(
    tasks: seq<Task>,
    lists: seq<seq<int>>,
    nextFree: nat,
    active: int,
    slots: seq<int>,
    ticks: seq<char>,
    keys: seq<char>,
    issued: seq<int>,
    sent: seq<seq<Letter>>,
    got: seq<seq<Receipt>>)

  ghost predicate Sized(a: Kernel) {
    && |a.tasks| == TASKS
    && |a.lists| == LISTS
    && a.nextFree <= TASKS
    && |a.slots| == EVENTS
    && |a.sent| == TASKS
    && |a.got| == TASKS
  }

  ghost predicate IsTask(a: Kernel, t: int) {
    Sized(a) && 0 <= t < a.nextFree && 0 <= a.tasks[t].priority < PRIORITIES
  }

  // ---------- Task ids ----------

  /** The task id the descriptor gets at exit: the generation number above the
      index byte grows by one, in 32-bit two's complement arithmetic. */
  function NextTid(id: int): int {
    var sum := id - id % TASKS + TASKS + id % TASKS;
    if sum > MAX_INT then sum - 0x1_0000_0000 else sum
  }

  /** A live task has this id. */
  ghost predicate Alive(a: Kernel, tid: int) {
    && Sized(a) && 0 <= tid && tid % TASKS < a.nextFree
    && a.tasks[tid % TASKS].id == tid && !a.tasks[tid % TASKS].state.Zombie?
  }

  // ---------- Scheduling ----------

  /** The greatest priority up to p whose ready queue is not empty, or -1. */
  ghost function TopPriority(lists: seq<seq<int>>, p: int): (top: int)
    requires p < |lists|
    ensures top == -1 || (0 <= top <= p && lists[top] != [])
    ensures forall i :: 0 <= i <= p && top < i ==> lists[i] == []
    decreases p + 1
  {
    if p < 0 then -1 else if lists[p] != [] then p else TopPriority(lists, p - 1)
  }

  ghost predicate CanDispatch(a: Kernel) {
    && Sized(a)
    && TopPriority(a.lists, PRIORITIES - 1) >= 0
    && 0 <= a.lists[TopPriority(a.lists, PRIORITIES - 1)][0] < TASKS
  }

  /** The task at the head of the highest non-empty ready queue starts to run. */
  ghost function Dispatch(a: Kernel): (b: Kernel)
    requires CanDispatch(a)
    ensures Sized(b)
  {
    var p := TopPriority(a.lists, PRIORITIES - 1);
    var t := a.lists[p][0];
    a.(lists := a.lists[p := a.lists[p][1..]],
       tasks := a.tasks[t := a.tasks[t].(state := Active)],
       active := t)
  }

  ghost function SetReady(a: Kernel, t: int): (b: Kernel)
    requires IsTask(a, t)
    ensures Sized(b)
  {
    var p := a.tasks[t].priority;
    if a.tasks[t].state.Ready? then a
    else a.(lists := a.lists[p := a.lists[p] + [t]],
            tasks := a.tasks[t := a.tasks[t].(state := Ready, req := None)])
  }

  ghost function Finish(a: Kernel, t: int, result: Outcome): (b: Kernel)
    requires Sized(a) && 0 <= t < TASKS
    ensures Sized(b)
  {
    a.(tasks := a.tasks[t := a.tasks[t].(result := result)])
  }

  /** The running task goes to the back of its own ready queue. */
  ghost function Requeue(a: Kernel): (b: Kernel)
    requires IsTask(a, a.active)
    ensures Sized(b)
  {
    SetReady(a, a.active).(active := NULL)
  }

  ghost function Return(a: Kernel, v: int): (b: Kernel)
    requires IsTask(a, a.active)
    ensures Sized(b)
  {
    Requeue(Finish(a, a.active, Value(v)))
  }

  ghost function Refuse(a: Kernel): (b: Kernel)
    requires IsTask(a, a.active)
    ensures Sized(b)
  {
    Requeue(Finish(a, a.active, NoSuchCall))
  }

  // ---------- Create and exit ----------

  predicate IsPriority(prio: int) {
    0 <= prio < PRIORITIES
  }

  ghost predicate CanCreate(a: Kernel)
    requires Sized(a)
  {
    a.nextFree < TASKS || (a.lists[FREE] != [] && 0 <= a.lists[FREE][0] < TASKS)
  }

  /** A fresh descriptor comes from the unused part of the array, else from the free list. */
  ghost function NewTask(a: Kernel, prio: int): (r: (Kernel, int))
    requires Sized(a) && CanCreate(a)
    ensures Sized(r.0) && 0 <= r.1 < r.0.nextFree
  {
    var unused := a.nextFree < TASKS;
    var t := if unused then a.nextFree else a.lists[FREE][0];
    var id := if unused then t else a.tasks[t].id;
    var lists := if unused then a.lists else a.lists[FREE := a.lists[FREE][1..]];
    (a.(tasks := a.tasks[t := Task(Initialized, prio, id, NULL, None, NoOutcome)],
        lists := lists[SenderQ(t) := []],
        nextFree := if unused then a.nextFree + 1 else a.nextFree,
        issued := a.issued + [id],
        sent := a.sent[t := []],
        got := a.got[t := []]),
     t)
  }

  ghost function SetParent(a: Kernel, t: int, parent: int): (b: Kernel)
    requires Sized(a) && 0 <= t < TASKS
    ensures Sized(b)
  {
    a.(tasks := a.tasks[t := a.tasks[t].(parent := parent)])
  }

  ghost function CreateTask(a: Kernel, prio: int): (b: Kernel)
    requires IsTask(a, a.active)
    requires IsPriority(prio) ==> CanCreate(a) && (a.nextFree == TASKS ==> a.lists[FREE][0] != a.active)
    ensures Sized(b)
  {
    if IsPriority(prio) then
      var (a1, t) := NewTask(a, prio);
      Return(SetReady(SetParent(a1, t, a.active), t), a1.tasks[t].id)
    else
      Return(a, -1)
  }

  /** The running task becomes a zombie; whoever is still queued to send to it is
      stranded, and its descriptor is freed unless its next id would wrap. */
  ghost function ExitTask(a: Kernel): (b: Kernel)
    requires IsTask(a, a.active)
    ensures Sized(b)
  {
    var t := a.active;
    var id := a.tasks[t].id;
    var lists := a.lists[SenderQ(t) := []];
    if NextTid(id) <= id then
      a.(tasks := a.tasks[t := a.tasks[t].(state := Zombie)], lists := lists)
    else
      a.(tasks := a.tasks[t := a.tasks[t].(state := Zombie, id := NextTid(id))],
         lists := lists[FREE := [t] + lists[FREE]])
  }

  // ---------- Messages ----------

  function Min(x: int, y: int): (m: int) {
    if x > y then y else x
  }

  function Truncate(text: seq<char>, cap: nat): (r: seq<char>)
    ensures r <= text && |r| <= cap && (|r| == |text| || |r| == cap)
  {
    text[..Min(|text|, cap)]
  }

  ghost predicate CanDeliver(a: Kernel, s: int, r: int) {
    && Sized(a)
    && 0 <= s < TASKS && s != r
    && IsTask(a, r)
    && a.tasks[s].req.Some? && a.tasks[s].req.value.Send?
    && a.tasks[r].req.Some? && a.tasks[r].req.value.Receive?
  }

  /** The message of sender s reaches receiver r, which becomes ready. */
  ghost function Deliver(a: Kernel, s: int, r: int): (b: Kernel)
    requires CanDeliver(a, s, r)
    ensures Sized(b)
  {
    var text := Truncate(a.tasks[s].req.value.msg, a.tasks[r].req.value.cap);
    var result := Received(a.tasks[s].id, text, |text|);
    var tasks := a.tasks[r := a.tasks[r].(result := result)];
    SetReady(a.(tasks := tasks[s := tasks[s].(state := ReplBlocked)],
                got := a.got[r := a.got[r] + [Receipt(a.tasks[r].req.value.cap, result)]]), r)
  }

  ghost predicate CanSend(a: Kernel, tid: int) {
    && IsTask(a, a.active)
    && (Alive(a, tid) ==>
          var r := tid % TASKS;
          r != a.active && a.tasks[r].state.SendBlocked? ==>
            IsTask(a, r) && a.tasks[r].req.Some? && a.tasks[r].req.value.Receive?)
  }

  /** The running task has posted its letter and waits for it to be received. */
  ghost function Posted(a: Kernel, tid: int, msg: seq<char>, replyCap: nat): (b: Kernel)
    requires Sized(a) && 0 <= a.active < TASKS
    ensures Sized(b)
  {
    var s := a.active;
    var r := tid % TASKS;
    a.(tasks := a.tasks[s := a.tasks[s].(state := RecvBlocked, req := Some(Send(tid, msg, replyCap)))],
       sent := a.sent[r := a.sent[r] + [Letter(a.tasks[s].id, msg)]])
  }

  ghost function SendTo(a: Kernel, tid: int, msg: seq<char>, replyCap: nat): (b: Kernel)
    requires CanSend(a, tid)
    ensures Sized(b)
  {
    if tid < 0 then Return(a, -1)
    else if !Alive(a, tid) then Return(a, -2)
    else
      var s := a.active;
      var r := tid % TASKS;
      var a1 := Posted(a, tid, msg, replyCap);
      if a1.tasks[r].state.SendBlocked? then Deliver(a1, s, r)
      else a1.(lists := a1.lists[SenderQ(r) := a1.lists[SenderQ(r)] + [s]])
  }

  ghost predicate CanReceive(a: Kernel) {
    && IsTask(a, a.active)
    && var q := a.lists[SenderQ(a.active)];
      q != [] ==>
        0 <= q[0] < TASKS && q[0] != a.active && a.tasks[q[0]].req.Some? && a.tasks[q[0]].req.value.Send?
  }

  /** The running task waits for a letter. */
  ghost function Listening(a: Kernel, cap: nat): (b: Kernel)
    requires Sized(a) && 0 <= a.active < TASKS
    ensures Sized(b)
  {
    a.(tasks := a.tasks[a.active := a.tasks[a.active].(state := SendBlocked, req := Some(Receive(cap)))])
  }

  ghost function ReceiveNext(a: Kernel, cap: nat): (b: Kernel)
    requires CanReceive(a)
    ensures Sized(b)
  {
    var r := a.active;
    var q := a.lists[SenderQ(r)];
    var a1 := Listening(a, cap);
    if q == [] then a1
    else Deliver(a1.(lists := a1.lists[SenderQ(r) := q[1..]]), q[0], r)
  }

  ghost predicate ReplyTarget(a: Kernel, tid: int)
    requires Sized(a)
  {
    Alive(a, tid) && a.tasks[tid % TASKS].state.ReplBlocked?
  }

  ghost predicate CanReply(a: Kernel, tid: int) {
    && IsTask(a, a.active)
    && (ReplyTarget(a, tid) ==>
          var s := tid % TASKS;
          s != a.active && IsTask(a, s) && a.tasks[s].req.Some? && a.tasks[s].req.value.Send?)
  }

  ghost function ReplyTo(a: Kernel, tid: int, reply: seq<char>): (b: Kernel)
    requires CanReply(a, tid)
    ensures Sized(b)
  {
    if tid < 0 then Return(a, -1)
    else if !Alive(a, tid) then Return(a, -2)
    else
      var s := tid % TASKS;
      if !a.tasks[s].state.ReplBlocked? then Return(a, -3)
      else
        var answer := Truncate(reply, a.tasks[s].req.value.replyCap);
        var a1 := Finish(a, s, Replied(|reply|, answer));
        Return(SetReady(a1, s), 0)
  }

  // ---------- Events ----------

  ghost predicate CanWake(a: Kernel, e: int) {
    Sized(a) && 0 <= e < EVENTS && (a.slots[e] != NULL ==> IsTask(a, a.slots[e]))
  }

  /** The task waiting for event e, if any, gets `data` and becomes ready. */
  ghost function Wake(a: Kernel, e: int, data: seq<char>): (b: Kernel)
    requires CanWake(a, e)
    ensures Sized(b) && (CanInterrupt(a) ==> CanInterrupt(b))
  {
    if a.slots[e] == NULL then a
    else SetReady(Finish(a, a.slots[e], Event(data)), a.slots[e]).(slots := a.slots[e := NULL])
  }

  /** The first characters of a buffer, as many as one event message carries. */
  function Batch(buffer: seq<char>): (r: seq<char>) {
    buffer[..Min(|buffer|, TEXT_EVENTS_LIMIT)]
  }

  function Rest(buffer: seq<char>): (r: seq<char>) {
    buffer[Min(|buffer|, TEXT_EVENTS_LIMIT)..]
  }

  /** Pushing onto a bounded buffer loses what does not fit. */
  function Push(buffer: seq<char>, text: seq<char>): (r: seq<char>) {
    buffer + text[..Min(|text|, if |buffer| < BUFFER_SIZE then BUFFER_SIZE - |buffer| else 0)]
  }

  ghost function WakeTicks(a: Kernel): (b: Kernel)
    requires CanWake(a, CLOCK_TICK)
    ensures Sized(b) && (CanInterrupt(a) ==> CanInterrupt(b))
  {
    if a.slots[CLOCK_TICK] == NULL then a
    else Wake(a, CLOCK_TICK, Batch(a.ticks)).(ticks := Rest(a.ticks))
  }

  ghost function WakeKeys(a: Kernel): (b: Kernel)
    requires CanWake(a, UART2_RECEIVE_READY)
    ensures Sized(b) && (CanInterrupt(a) ==> CanInterrupt(b))
  {
    if a.slots[UART2_RECEIVE_READY] == NULL then a
    else Wake(a, UART2_RECEIVE_READY, Batch(a.keys)).(keys := Rest(a.keys))
  }

  ghost predicate CanAwait(a: Kernel) {
    IsTask(a, a.active)
  }

  ghost function Await(a: Kernel, e: int): (b: Kernel)
    requires CanAwait(a)
    ensures Sized(b)
  {
    if e >= EVENTS || e < 0 then Return(a, -1)
    else if a.slots[e] != NULL then Return(a, -4)
    else
      var t := a.active;
      var a1 := a.(tasks := a.tasks[t := a.tasks[t].(req := Some(AwaitEvent(e)))], slots := a.slots[e := t]);
      if e == UART2_RECEIVE_READY && a1.keys != [] then WakeKeys(a1)
      else if e == CLOCK_TICK && a1.ticks != [] then WakeTicks(a1)
      else a1
  }

  ghost predicate CanInterrupt(a: Kernel) {
    && Sized(a)
    && (forall e :: 0 <= e < EVENTS && a.slots[e] != NULL ==> IsTask(a, a.slots[e]))
  }

  ghost function HandleInterrupt(a: Kernel, d: Interrupt): (b: Kernel)
    requires CanInterrupt(a)
    ensures CanInterrupt(b)
  {
    match d
    case Timer => WakeTicks(a.(ticks := Push(a.ticks, ['A'])))
    case Uart1Receive(c) => Wake(a, UART1_RECEIVE_READY, [c])
    case Uart1Transmit => Wake(Wake(a, UART1_SEND_READY_INITIAL, []), UART1_SEND_READY, [])
    case Uart2Receive(text) => WakeKeys(a.(keys := Push(a.keys, text)))
    case Uart2Transmit => Wake(a, UART2_SEND_READY, [])
  }

  ghost function HandleInterrupts(a: Kernel, devices: seq<Interrupt>): (b: Kernel)
    requires CanInterrupt(a)
    ensures CanInterrupt(b)
    decreases |devices|
  {
    if devices == [] then a
    else HandleInterrupts(HandleInterrupt(a, devices[0]), devices[1..])
  }

  // ---------- One kernel step, and runs ----------

  ghost predicate CanHandle(a: Kernel, req: Request) {
    && IsTask(a, a.active)
    && match req
      case Irq(_) => CanInterrupt(Requeue(a))
      case Create(prio) =>
        IsPriority(prio) ==> CanCreate(a) && (a.nextFree == TASKS ==> a.lists[FREE][0] != a.active)
      case Send(tid, _, _) => CanSend(a, tid)
      case Receive(_) => CanReceive(a)
      case Reply(tid, _) => CanReply(a, tid)
      case _ => true
  }

  ghost function Handle(a: Kernel, req: Request): (b: Kernel)
    requires CanHandle(a, req)
    ensures Sized(b)
  {
    match req
    case Irq(devices) => HandleInterrupts(Requeue(a), devices)
    case MyTid => Return(a, a.tasks[a.active].id)
    case MyParentTid =>
      var parent := a.tasks[a.active].parent;
      Return(a, if 0 <= parent < TASKS then a.tasks[parent].id else -1)
    case Create(prio) => CreateTask(a, prio)
    case Send(tid, msg, replyCap) => SendTo(a, tid, msg, replyCap)
    case Receive(cap) => ReceiveNext(a, cap)
    case Reply(tid, reply) => ReplyTo(a, tid, reply)
    case AwaitEvent(e) => Await(a, e)
    case Exit => ExitTask(a)
    case Unknown => Refuse(a)
  }
}
