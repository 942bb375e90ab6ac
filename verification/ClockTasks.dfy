/** The tasks of the clock path on the kernel: notifier, couriers and clock server make their
    calls in turn, while interrupts and other tasks come in between.  Each round of the kernel
    is a move of the pipeline, or several, or none. */
module ClockTasks {
  import opened KernelModel
  import opened KernelInvariant
  import opened KernelRuns
  import opened TickPath
  import ClockServers

  const MAX_MESSAGE_SIZE := 16384

  // The message types 0x05020010 and 0x01001000, least significant byte first.
  const TICK_TYPE: seq<char> := ['\U{10}', '\U{0}', '\U{2}', '\U{5}']
  const COURIER_TYPE: seq<char> := ['\U{0}', '\U{10}', '\U{0}', '\U{1}']
  const TYPE_SIZE := 4

  /** The call that the task made last; a notifier that has yet to make one counts as
      having replied. */
  datatype NotifierCall = Awaiting | Receiving | Replying

  datatype CourierCall = Starting | Fetching | Delivering(buffer: seq<char>)

  datatype ServerCall = Listening | Working

  /** The kernel, the descriptors of the tasks, and what the tasks keep to themselves.  The
      interrupts taken and lost are counted beside them. */
  datatype World = World(
    kernel: Kernel,
    notifier: int,
    server: int,
    couriers: seq<int>,
    call: NotifierCall,
    str: seq<char>,
    loads: seq<CourierCall>,
    serverCall: ServerCall,
    time: nat,
    taken: nat,
    lost: nat)

  /** The notifier's message: its type, and the ticks with a terminator. */
  function TickMessage(str: seq<char>): (text: seq<char>) {
    TICK_TYPE + str
  }

  function Payload(text: seq<char>): (str: seq<char>) {
    if |text| < TYPE_SIZE then [] else text[TYPE_SIZE..]
  }

  ghost predicate IsTickMessage(text: seq<char>) {
    |text| == TYPE_SIZE + MESSAGE_LENGTH && text == TickMessage(Payload(text)) && '\0' in Payload(text)
  }

  lemma PayloadOf(str: seq<char>)
    ensures Payload(TickMessage(str)) == str
    ensures |str| == MESSAGE_LENGTH && '\0' in str ==> IsTickMessage(TickMessage(str))
  {
  }

  // What a call has returned to its task.

  ghost function DataOf(result: Outcome): (data: seq<char>) {
    if result.Event? then result.data else []
  }

  ghost function FromOf(result: Outcome): (id: int) {
    if result.Received? then result.from else -1
  }

  ghost function TextOf(result: Outcome): (text: seq<char>) {
    if result.Received? then result.text else if result.Replied? then result.answer else []
  }

  // ---------- The tasks between two rounds ----------

  /** The task runs or can run: its last call has returned. */
  ghost predicate Idle(t: Task) {
    t.state.Ready? || t.state.Active?
  }

  ghost predicate Blocked(t: Task) {
    t.state.RecvBlocked? || t.state.ReplBlocked?
  }

  ghost predicate Mine(w: World, x: int) {
    x == w.notifier || x == w.server || x in w.couriers
  }

  ghost predicate Lives(a: Kernel, x: int) {
    Sized(a) && 0 <= x < a.nextFree && !a.tasks[x].state.Zombie?
  }

  /** The tasks are different ones, and alive. */
  ghost predicate Cast(w: World) {
    && Sized(w.kernel)
    && Lives(w.kernel, w.notifier) && Lives(w.kernel, w.server)
    && (forall c :: 0 <= c < |w.couriers| ==> Lives(w.kernel, w.couriers[c]))
    && w.notifier != w.server && w.notifier !in w.couriers && w.server !in w.couriers
    && (forall c, d :: 0 <= c < d < |w.couriers| ==> w.couriers[c] != w.couriers[d])
    && |w.loads| == |w.couriers| && |w.str| == MESSAGE_LENGTH
  }

  ghost function CourierTask(w: World, c: int): (t: Task)
    requires Cast(w) && 0 <= c < |w.couriers|
  {
    w.kernel.tasks[w.couriers[c]]
  }

  ghost predicate AreTicks(data: seq<char>) {
    forall k :: 0 <= k < |data| ==> data[k] == TICK
  }

  ghost predicate Waiting(w: World)
    requires Cast(w)
  {
    w.kernel.slots[CLOCK_TICK] == w.notifier
  }

  ghost predicate NotifierOk(w: World)
    requires Cast(w)
  {
    var t := w.kernel.tasks[w.notifier];
    match w.call
    case Awaiting =>
      Waiting(w) || (Idle(t) && t.result.Event? && AreTicks(t.result.data) && |t.result.data| <= TEXT_EVENTS_LIMIT)
    case Receiving =>
      && '\0' in w.str && !Waiting(w)
      && (Idle(t) ==> t.result.Received? && exists c :: Served(w, c, t.result.from))
      && (!Idle(t) ==> t.state.SendBlocked? && t.req == Some(Receive(0)))
    case Replying => Idle(t) && !Waiting(w)
  }

  /** Courier c, which has this id, waits for the notifier's reply. */
  ghost predicate Served(w: World, c: int, id: int)
    requires Cast(w)
  {
    && 0 <= c < |w.couriers| && w.loads[c].Fetching?
    && CourierTask(w, c).id == id && CourierTask(w, c).state.ReplBlocked?
  }

  ghost predicate CourierOk(w: World, c: int)
    requires Cast(w) && 0 <= c < |w.couriers|
  {
    var k, t := w.kernel, CourierTask(w, c);
    match w.loads[c]
    case Starting => Idle(t)
    case Fetching =>
      && (Blocked(t) ==> t.req == Some(Send(k.tasks[w.notifier].id, COURIER_TYPE, MAX_MESSAGE_SIZE)))
      && (!Blocked(t) ==> Idle(t) && t.result.Replied? && IsTickMessage(t.result.answer))
    case Delivering(buffer) =>
      && IsTickMessage(buffer)
      && (Blocked(t) ==> t.req == Some(Send(k.tasks[w.server].id, buffer, TYPE_SIZE)))
      && (!Blocked(t) ==> Idle(t))
  }

  ghost predicate ServerOk(w: World)
    requires Cast(w)
  {
    var t := w.kernel.tasks[w.server];
    match w.serverCall
    case Working => Idle(t)
    case Listening =>
      && (Idle(t) ==> t.result.Received? && forall c :: 0 <= c < |w.couriers| ==> HeardOk(w, c, t.result))
      && (!Idle(t) ==> t.state.SendBlocked? && t.req == Some(Receive(TYPE_SIZE + MESSAGE_LENGTH)))
  }

  /** If what the server has received came from courier c, it is what c carries. */
  ghost predicate HeardOk(w: World, c: int, result: Outcome)
    requires Cast(w) && 0 <= c < |w.couriers|
  {
    var t := CourierTask(w, c);
    FromOf(result) == t.id ==> t.state.ReplBlocked? && w.loads[c] == Delivering(TextOf(result))
  }

  ghost predicate SendsTo(t: Task, id: int) {
    t.state.RecvBlocked? && t.req.Some? && t.req.value.Send? && t.req.value.tid == id
  }

  /** Nobody but a courier sends to the notifier. */
  ghost predicate Unasked(w: World)
    requires Cast(w)
  {
    forall x {:trigger w.kernel.tasks[x]} ::
      0 <= x < w.kernel.nextFree && SendsTo(w.kernel.tasks[x], w.kernel.tasks[w.notifier].id) ==> x in w.couriers
  }

  ghost predicate SlotsOk(w: World)
    requires Cast(w)
  {
    && (w.kernel.slots[CLOCK_TICK] == NULL || Waiting(w))
    && forall e :: 0 <= e < EVENTS && e != CLOCK_TICK ==> !Mine(w, w.kernel.slots[e])
  }

  ghost predicate Consistent(w: World) {
    && Cast(w) && NotifierOk(w) && ServerOk(w) && Unasked(w) && SlotsOk(w) && AreTicks(w.kernel.ticks)
    && forall c :: 0 <= c < |w.couriers| ==> CourierOk(w, c)
  }

  // ---------- The pipeline seen in the world ----------

  ghost function NotifierView(w: World): (n: Notifier)
    requires Consistent(w)
  {
    match w.call
    case Awaiting =>
      if Waiting(w) then InSlot(w.str) else Holding(Written(w.str, w.kernel.tasks[w.notifier].result.data))
    case Receiving => Holding(w.str)
    case Replying => AboutToAwait(w.str)
  }

  ghost function CourierView(w: World, c: int): (view: Courier)
    requires Cast(w) && 0 <= c < |w.couriers|
  {
    match w.loads[c]
    case Starting => AtNotifier
    case Fetching =>
      if Blocked(CourierTask(w, c)) then AtNotifier else Carrying(Payload(TextOf(CourierTask(w, c).result)))
    case Delivering(buffer) => if Blocked(CourierTask(w, c)) then Carrying(Payload(buffer)) else AtNotifier
  }

  ghost function CourierViews(w: World): (views: seq<Courier>)
    requires Cast(w)
    ensures |views| == |w.couriers| && forall c :: 0 <= c < |views| ==> views[c] == CourierView(w, c)
  {
    seq(|w.couriers|, c requires 0 <= c < |w.couriers| => CourierView(w, c))
  }

  ghost function Project(w: World): (p: Pipeline)
    requires Consistent(w)
  {
    Pipeline(w.kernel.ticks, NotifierView(w), CourierViews(w), w.time, w.taken, w.lost)
  }

  lemma ProjectMessages(w: World)
    requires Consistent(w)
    ensures Messages(Project(w))
  {
    var p := Project(w);
    forall c | 0 <= c < |p.couriers| && p.couriers[c].Carrying?
      ensures '\0' in p.couriers[c].str
    {
      assert CourierOk(w, c);
    }
    if w.call.Awaiting? && !Waiting(w) {
      WrittenLength(w.str, w.kernel.tasks[w.notifier].result.data);
    }
  }

  // ---------- What leaves the path alone ----------

  /** The same task, or one whose call had returned and which has only been scheduled. */
  ghost predicate Alike(t: Task, u: Task) {
    t == u || (Idle(t) && Idle(u) && u.id == t.id && u.result == t.result)
  }

  /** From w to v only our tasks in `moved` have changed, nobody else has stepped into
      their way, and no ids have changed. */
  ghost predicate Around(w: World, v: World, moved: set<int>) {
    && Cast(w) && Cast(v) && v.notifier == w.notifier && v.server == w.server && v.couriers == w.couriers
    && (forall x {:trigger Mine(w, x)} :: Mine(w, x) ==>
          && 0 <= x < TASKS && v.kernel.tasks[x].id == w.kernel.tasks[x].id
          && (x !in moved ==> Alike(w.kernel.tasks[x], v.kernel.tasks[x])))
    && (forall e :: 0 <= e < EVENTS && e != CLOCK_TICK ==> !Mine(w, v.kernel.slots[e]))
    && Unasked(v)
  }

  lemma CouriersMine(w: World)
    ensures forall c :: 0 <= c < |w.couriers| ==> Mine(w, w.couriers[c])
    ensures Mine(w, w.notifier) && Mine(w, w.server)
  {
  }

  lemma AroundCourier(w: World, v: World, moved: set<int>, c: int)
    requires Around(w, v, moved) && 0 <= c < |w.couriers| && CourierOk(w, c)
    requires w.couriers[c] !in moved && v.loads[c] == w.loads[c]
    ensures CourierOk(v, c) && CourierView(v, c) == CourierView(w, c)
  {
    CouriersMine(w);
    assert Mine(w, w.couriers[c]);
  }

  /** Couriers that have not moved are as they were. */
  lemma AroundCouriers(w: World, v: World, moved: set<int>)
    requires Around(w, v, moved) && forall c :: 0 <= c < |w.couriers| ==> CourierOk(w, c)
    ensures forall c :: 0 <= c < |w.couriers| && w.couriers[c] !in moved && v.loads[c] == w.loads[c] ==>
      CourierOk(v, c) && CourierView(v, c) == CourierView(w, c)
  {
    forall c | 0 <= c < |w.couriers| && w.couriers[c] !in moved && v.loads[c] == w.loads[c]
      ensures CourierOk(v, c) && CourierView(v, c) == CourierView(w, c)
    {
      AroundCourier(w, v, moved, c);
    }
  }

  /** Only courier c has moved, and a task that is no courier. */
  lemma OneCourier(w: World, v: World, x: int, c: int)
    requires Consistent(w) && x !in w.couriers && 0 <= c < |w.couriers| && Around(w, v, {x, w.couriers[c]})
    requires forall d :: 0 <= d < |w.couriers| && d != c ==> v.loads[d] == w.loads[d]
    requires CourierOk(v, c)
    ensures forall d :: 0 <= d < |v.couriers| ==> CourierOk(v, d)
    ensures CourierViews(v) == CourierViews(w)[c := CourierView(v, c)]
  {
    hide NotifierOk, ServerOk, Unasked, SlotsOk;
    AroundCouriers(w, v, {x, w.couriers[c]});
    assert forall d :: 0 <= d < |w.couriers| && d != c ==> w.couriers[d] != w.couriers[c];
  }

  /** A turn that does not concern the notifier leaves it as it was. */
  lemma AroundNotifier(w: World, v: World, moved: set<int>)
    requires Around(w, v, moved) && NotifierOk(w) && w.notifier !in moved
    requires v.call == w.call && v.str == w.str && v.kernel.slots[CLOCK_TICK] == w.kernel.slots[CLOCK_TICK]
    requires forall c :: 0 <= c < |w.couriers| && w.loads[c].Fetching? && CourierTask(w, c).state.ReplBlocked? ==>
      w.couriers[c] !in moved && v.loads[c] == w.loads[c]
    ensures NotifierOk(v)
    ensures Consistent(w) && Consistent(v) ==> NotifierView(v) == NotifierView(w)
  {
    CouriersMine(w);
    forall c, id | Served(w, c, id)
      ensures Served(v, c, id)
    {
      assert Mine(w, w.couriers[c]);
    }
  }

  /** Nor does it change what the server has heard, while couriers stay that wait for it. */
  lemma AroundServer(w: World, v: World, moved: set<int>)
    requires Around(w, v, moved) && ServerOk(w) && w.server !in moved && v.serverCall == w.serverCall
    requires forall c :: 0 <= c < |w.couriers| && w.loads[c].Delivering? && CourierTask(w, c).state.ReplBlocked? ==>
      w.couriers[c] !in moved && v.loads[c] == w.loads[c]
    ensures ServerOk(v)
  {
    CouriersMine(w);
    if w.serverCall.Listening? && Idle(w.kernel.tasks[w.server]) {
      var result := w.kernel.tasks[w.server].result;
      forall c | 0 <= c < |w.couriers|
        ensures HeardOk(v, c, result)
      {
        assert Mine(w, w.couriers[c]) && HeardOk(w, c, result);
      }
    }
  }

  /** Nothing of the path has moved. */
  lemma Stutter(w: World, v: World)
    requires Consistent(w) && Around(w, v, {}) && AreTicks(v.kernel.ticks)
    requires v.kernel.slots[CLOCK_TICK] == w.kernel.slots[CLOCK_TICK]
    requires v.call == w.call && v.str == w.str && v.loads == w.loads && v.serverCall == w.serverCall
    ensures Consistent(v) && NotifierView(v) == NotifierView(w) && CourierViews(v) == CourierViews(w)
  {
    AroundCouriers(w, v, {});
    AroundNotifier(w, v, {});
    AroundServer(w, v, {});
  }

  /** The notifier has moved; the rest of the path has not. */
  lemma AroundPath(w: World, v: World, n: int)
    requires Consistent(w) && Around(w, v, {n}) && n == w.notifier
    requires v.loads == w.loads && v.serverCall == w.serverCall
    ensures ServerOk(v) && CourierViews(v) == CourierViews(w)
    ensures forall c :: 0 <= c < |v.couriers| ==> CourierOk(v, c)
  {
    AroundCouriers(w, v, {n});
    AroundServer(w, v, {n});
  }

  // ---------- Interrupts ----------

  /** One device is served. */
  ghost function Interrupted(w: World, d: Interrupt): (v: World)
    requires CanInterrupt(w.kernel)
    ensures CanInterrupt(v.kernel)
  {
    w.(kernel := HandleInterrupt(w.kernel, d),
       taken := if d.Timer? then w.taken + 1 else w.taken,
       lost := if d.Timer? && |w.kernel.ticks| >= BUFFER_SIZE then w.lost + 1 else w.lost)
  }

  ghost predicate Calm(w: World) {
    Inv(w.kernel, {}) && Consistent(w)
  }

  /** The clock slot's task, if any, has its ticks; then nobody waits in the slot. */
  lemma TimerServed(a: Kernel)
    requires Inv(a, {})
    ensures CanInterrupt(a)
    ensures
      var b, buffer := HandleInterrupt(a, Timer), Push(a.ticks, [TICK]);
      if a.slots[CLOCK_TICK] == NULL then b == a.(ticks := buffer)
      else
        var n := a.slots[CLOCK_TICK];
        && 0 <= n < TASKS && a.ticks == []
        && b.tasks == a.tasks[n := a.tasks[n].(state := Ready, req := None, result := Event([TICK]))]
        && b.slots == a.slots[CLOCK_TICK := NULL] && b.ticks == [] && b.nextFree == a.nextFree
  {
    assert SlotOk(a, CLOCK_TICK, {});
    assert Batch([TICK]) == [TICK] && Rest([TICK]) == [];
    if a.slots[CLOCK_TICK] != NULL {
      assert Push(a.ticks, [TICK]) == [TICK];
    }
  }

  lemma TimerAround(w: World)
    requires Calm(w)
    ensures CanInterrupt(w.kernel)
    ensures Around(w, Interrupted(w, Timer), if Waiting(w) then {w.notifier} else {})
  {
    hide Inv, HandleInterrupt, NotifierOk, ServerOk, CourierOk;
    TimerServed(w.kernel);
    CouriersMine(w);
  }

  /** A timer interrupt is the pipeline's. */
  lemma TimerMoves(w: World)
    requires Calm(w)
    ensures CanInterrupt(w.kernel)
    ensures var v := Interrupted(w, Timer);
      Consistent(v) && Messages(Project(w)) && Project(v) == Next(Project(w), TimerInterrupt)
  {
    hide Inv, HandleInterrupt, CourierOk, ServerOk, Served, HeardOk, Around;
    TimerServed(w.kernel);
    TimerAround(w);
    ProjectMessages(w);
    var v := Interrupted(w, Timer);
    if Waiting(w) {
      AroundPath(w, v, w.notifier);
      assert Batch([TICK]) == [TICK] && Rest([TICK]) == [];
      assert Push(w.kernel.ticks, [TICK]) == [TICK];
    } else {
      Stutter(w, v);
    }
  }

  /** Only tasks in slots other than the clock's may have been woken. */
  ghost predicate WokenElsewhere(a: Kernel, b: Kernel) {
    && Sized(a) && Sized(b) && b.nextFree == a.nextFree && b.ticks == a.ticks
    && b.slots[CLOCK_TICK] == a.slots[CLOCK_TICK]
    && (forall e :: 0 <= e < EVENTS && e != CLOCK_TICK ==> b.slots[e] == NULL || b.slots[e] == a.slots[e])
    && forall x :: 0 <= x < TASKS ==>
        || b.tasks[x] == a.tasks[x]
        || (b.tasks[x].state.Ready? && exists e :: 0 <= e < EVENTS && e != CLOCK_TICK && a.slots[e] == x)
  }

  lemma OneWoken(a: Kernel, e: int, data: seq<char>)
    requires Inv(a, {}) && 0 <= e < EVENTS && e != CLOCK_TICK
    ensures CanWake(a, e) && WokenElsewhere(a, Wake(a, e, data)) && Inv(Wake(a, e, data), {})
  {
    assert SlotOk(a, e, {});
    WakeInv(a, e, data);
  }

  lemma OthersWoken(a: Kernel, d: Interrupt)
    requires Inv(a, {}) && !d.Timer?
    ensures CanInterrupt(a) && WokenElsewhere(a, HandleInterrupt(a, d))
  {
    hide Placed, Letters, Requests, Ids;
    InterruptMoves(a, d);
    match d {
      case Uart1Receive(c) => OneWoken(a, UART1_RECEIVE_READY, [c]);
      case Uart1Transmit =>
        OneWoken(a, UART1_SEND_READY_INITIAL, []);
        OneWoken(Wake(a, UART1_SEND_READY_INITIAL, []), UART1_SEND_READY, []);
      case Uart2Receive(text) => OneWoken(a, UART2_RECEIVE_READY, Batch(Push(a.keys, text)));
      case Uart2Transmit => OneWoken(a, UART2_SEND_READY, []);
    }
  }

  /** The other devices do not touch the path. */
  lemma OthersStutter(w: World, d: Interrupt)
    requires Calm(w) && !d.Timer?
    ensures CanInterrupt(w.kernel)
    ensures Consistent(Interrupted(w, d)) && Project(Interrupted(w, d)) == Project(w)
  {
    hide Inv, HandleInterrupt, NotifierOk, ServerOk, CourierOk, NotifierView, CourierView;
    OthersWoken(w.kernel, d);
    CouriersMine(w);
    var v := Interrupted(w, d);
    assert forall x :: Mine(w, x) ==> v.kernel.tasks[x] == w.kernel.tasks[x];
    assert Around(w, v, {});
    Stutter(w, v);
  }

  /** All devices of a request are served, one after another. */
  ghost function AllInterrupted(w: World, devices: seq<Interrupt>): (v: World)
    requires CanInterrupt(w.kernel)
    ensures v.kernel == HandleInterrupts(w.kernel, devices)
    decreases |devices|
  {
    if devices == [] then w else AllInterrupted(Interrupted(w, devices[0]), devices[1..])
  }

  ghost function Timers(devices: seq<Interrupt>): (moves: seq<Move>) {
    if devices == [] then []
    else (if devices[0].Timer? then [TimerInterrupt] else []) + Timers(devices[1..])
  }

  lemma {:induction false} InterruptsMoves(w: World, devices: seq<Interrupt>)
    requires Calm(w)
    ensures CanInterrupt(w.kernel)
    ensures var v := AllInterrupted(w, devices);
      Consistent(v) && Leads(Project(w), Timers(devices), Project(v))
    decreases |devices|
  {
    hide Inv, HandleInterrupt, Consistent, Project, Next, Messages;
    if devices == [] {
      TimerServed(w.kernel);
    } else {
      var d := devices[0];
      InterruptInv(w.kernel, d);
      if d.Timer? {
        TimerMoves(w);
      } else {
        OthersStutter(w, d);
      }
      var v := Interrupted(w, d);
      InterruptsMoves(v, devices[1..]);
      assert d.Timer? ==> ([TimerInterrupt] + Timers(devices[1..]))[1..] == Timers(devices[1..]);
      assert !d.Timer? ==> [] + Timers(devices[1..]) == Timers(devices[1..]);
    }
  }

  // ---------- Who runs next ----------

  ghost predicate Scheduled(a: Kernel, b: Kernel) {
    && Sized(a) && Sized(b) && b.nextFree == a.nextFree && b.ticks == a.ticks && b.slots == a.slots
    && forall x :: 0 <= x < TASKS ==>
        || b.tasks[x] == a.tasks[x]
        || (Alike(a.tasks[x], b.tasks[x]) && forall e :: 0 <= e < EVENTS ==> a.slots[e] != x)
  }

  lemma ScheduledStutter(w: World, b: Kernel)
    requires Consistent(w) && Scheduled(w.kernel, b)
    ensures Consistent(w.(kernel := b)) && Project(w.(kernel := b)) == Project(w)
  {
    hide NotifierOk, ServerOk, CourierOk, NotifierView, CourierView;
    CouriersMine(w);
    var v := w.(kernel := b);
    assert forall x :: Mine(w, x) ==> Alike(w.kernel.tasks[x], b.tasks[x]);
    assert Around(w, v, {});
    Stutter(w, v);
  }

  lemma DispatchStutter(w: World)
    requires Calm(w) && TopPriority(w.kernel.lists, PRIORITIES - 1) >= 0
    ensures CanDispatch(w.kernel) && Running(Dispatch(w.kernel))
    ensures var v := w.(kernel := Dispatch(w.kernel));
      Consistent(v) && Project(v) == Project(w)
  {
    hide Consistent, Project, Placed, Letters, Requests, Ids;
    DispatchInv(w.kernel);
    DispatchPlaced(w.kernel);
    ScheduledStutter(w, Dispatch(w.kernel));
  }

  lemma RequeueStutter(w: World)
    requires Running(w.kernel) && Consistent(w)
    ensures IsTask(w.kernel, w.kernel.active)
    ensures var v := w.(kernel := Requeue(w.kernel));
      Calm(v) && Project(v) == Project(w)
  {
    hide Consistent, Project, Placed, Letters, Requests, Ids;
    RequeueInv(w.kernel);
    ScheduledStutter(w, Requeue(w.kernel));
  }

  // ---------- A call of the running task ----------

  /** The tasks that a call changes besides its caller: the one it rendezvouses with, or
      a new one. */
  ghost function Partners(a: Kernel, req: Request): (s: set<int>)
    requires Sized(a) && 0 <= a.active < TASKS
  {
    match req
    case Send(tid, _, _) =>
      if Alive(a, tid) && tid % TASKS != a.active && a.tasks[tid % TASKS].state.SendBlocked? then {tid % TASKS} else {}
    case Receive(_) => if a.lists[SenderQ(a.active)] == [] then {} else {a.lists[SenderQ(a.active)][0]}
    case Reply(tid, _) => if ReplyTarget(a, tid) then {tid % TASKS} else {}
    case Create(_) => set x | 0 <= x < TASKS && !Lives(a, x)
    case _ => {}
  }

  /** Only the caller and its partners have changed, nobody else waits to send, and the
      clock's buffer and slot are as they were. */
  ghost predicate Quiet(a: Kernel, req: Request, b: Kernel)
    requires Sized(a) && 0 <= a.active < TASKS
  {
    && Sized(b) && b.nextFree >= a.nextFree && b.ticks == a.ticks
    && b.slots[CLOCK_TICK] == a.slots[CLOCK_TICK]
    && (forall e :: 0 <= e < EVENTS ==>
          b.slots[e] == NULL || b.slots[e] == a.slots[e] || (b.slots[e] == a.active && req.AwaitEvent?))
    && (forall x :: 0 <= x < TASKS && x != a.active && x !in Partners(a, req) ==> b.tasks[x] == a.tasks[x])
    && (forall x :: 0 <= x < TASKS && Lives(a, x) ==> b.tasks[x].id == a.tasks[x].id || (req.Exit? && x == a.active))
    && (forall x :: 0 <= x < TASKS && Lives(a, x) ==> !b.tasks[x].state.Zombie? || (req.Exit? && x == a.active))
    && (forall x :: 0 <= x < b.nextFree && b.tasks[x].state.RecvBlocked? ==>
          (x < a.nextFree && b.tasks[x] == a.tasks[x]) || (x == a.active && req.Send? && b.tasks[x].req == Some(req)))
  }

  ghost predicate Plain(req: Request) {
    !req.Irq? && (req.AwaitEvent? ==> req.event != CLOCK_TICK)
  }

  lemma ReturnQuiet(a: Kernel, req: Request, v: int)
    requires Running(a)
    ensures IsTask(a, a.active) && Quiet(a, req, Return(a, v))
  {
    assert RequestOk(a, a.active, {a.active});
  }

  lemma RefuseQuiet(a: Kernel, req: Request)
    requires Running(a)
    ensures IsTask(a, a.active) && Quiet(a, req, Refuse(a))
  {
    assert RequestOk(a, a.active, {a.active});
  }

  lemma SendQuiet(a: Kernel, tid: int, msg: seq<char>, replyCap: nat)
    requires Running(a)
    ensures CanSend(a, tid) && Quiet(a, Send(tid, msg, replyCap), SendTo(a, tid, msg, replyCap))
  {
    hide Inv;
    SendInv(a, tid, msg, replyCap);
    SendMoves(a, tid, msg, replyCap);
  }

  lemma ReceiveQuiet(a: Kernel, cap: nat)
    requires Running(a)
    ensures CanReceive(a) && Quiet(a, Receive(cap), ReceiveNext(a, cap))
  {
    hide Inv;
    ReceiveInv(a, cap);
    if a.lists[SenderQ(a.active)] != [] { HeadSender(a); }
    ReceiveMoves(a, cap);
  }

  lemma ReplyQuiet(a: Kernel, tid: int, reply: seq<char>)
    requires Running(a)
    ensures CanReply(a, tid) && Quiet(a, Reply(tid, reply), ReplyTo(a, tid, reply))
  {
    hide Inv;
    ReplyInv(a, tid, reply);
    ReplyMoves(a, tid, reply);
  }

  lemma AwaitQuiet(a: Kernel, e: int)
    requires Running(a) && e != CLOCK_TICK
    ensures CanAwait(a) && Quiet(a, Request.AwaitEvent(e), Await(a, e))
  {
    hide Inv, Return;
    AwaitInv(a, e);
    AwaitMoves(a, e);
    ReturnQuiet(a, Request.AwaitEvent(e), -1);
    ReturnQuiet(a, Request.AwaitEvent(e), -4);
  }

  lemma CreateQuiet(a: Kernel, prio: int)
    requires Running(a) && Admissible(a, Create(prio))
    ensures CanHandle(a, Create(prio)) && Quiet(a, Create(prio), CreateTask(a, prio))
  {
    hide Placed, Letters;
    CreateMoves(a, prio);
  }

  lemma ExitQuiet(a: Kernel)
    requires Running(a)
    ensures IsTask(a, a.active) && Quiet(a, Exit, ExitTask(a))
  {
    hide Placed, Letters;
    ExitInv(a);
    ExitMoves(a);
  }

  lemma HandleQuiet(a: Kernel, req: Request)
    requires Running(a) && Admissible(a, req) && Plain(req)
    ensures CanHandle(a, req) && Quiet(a, req, Handle(a, req))
  {
    hide Placed, Letters, Slots, Requests, Ids, Quiet, SendTo, ReceiveNext, ReplyTo, Await, CreateTask, ExitTask,
         Return;
    HandleInv(a, req);
    match req {
      case MyTid => ReturnQuiet(a, req, a.tasks[a.active].id);
      case MyParentTid =>
        var parent := a.tasks[a.active].parent;
        ReturnQuiet(a, req, if 0 <= parent < TASKS then a.tasks[parent].id else -1);
      case Create(prio) => CreateQuiet(a, prio);
      case Send(tid, msg, replyCap) => SendQuiet(a, tid, msg, replyCap);
      case Receive(cap) => ReceiveQuiet(a, cap);
      case Reply(tid, reply) => ReplyQuiet(a, tid, reply);
      case AwaitEvent(e) => AwaitQuiet(a, e);
      case Exit => ExitQuiet(a);
      case Unknown => RefuseQuiet(a, req);
    }
  }

  /** A live task's id leads to it. */
  lemma IdLeads(a: Kernel, x: int)
    requires Running(a) && Lives(a, x)
    ensures Alive(a, a.tasks[x].id) && a.tasks[x].id % TASKS == x
  {
    assert IdOk(a, x);
  }

  lemma SendOutcome(a: Kernel, tid: int, msg: seq<char>, replyCap: nat)
    requires Running(a) && Alive(a, tid) && tid % TASKS != a.active
    ensures CanHandle(a, Send(tid, msg, replyCap))
    ensures
      var b, s, r := Handle(a, Send(tid, msg, replyCap)), a.active, tid % TASKS;
      var waits := a.tasks[r].state.SendBlocked?;
      && b.tasks[s] ==
        a.tasks[s].(state := if waits then ReplBlocked else RecvBlocked, req := Some(Send(tid, msg, replyCap)))
      && (waits ==>
            && a.tasks[r].req.Some? && a.tasks[r].req.value.Receive?
            && var text := Truncate(msg, a.tasks[r].req.value.cap);
              b.tasks[r] == a.tasks[r].(state := Ready, req := None, result := Received(a.tasks[s].id, text, |text|)))
  {
    hide Placed, Letters, Slots;
    SendInv(a, tid, msg, replyCap);
  }

  /** The first sender in a queue waits to send to the queue's owner. */
  lemma HeadSends(a: Kernel)
    requires Running(a) && a.lists[SenderQ(a.active)] != []
    ensures var x := a.lists[SenderQ(a.active)][0];
      && 0 <= x < a.nextFree && x != a.active && a.tasks[x].state.RecvBlocked?
      && SendsTo(a.tasks[x], a.tasks[a.active].id)
  {
    hide Letters, Slots;
    HeadSender(a);
    HeadMember(a.lists[SenderQ(a.active)]);
  }

  lemma ReceiveOutcome(a: Kernel, cap: nat)
    requires Running(a)
    ensures CanHandle(a, Receive(cap))
    ensures
      var b, r, q := Handle(a, Receive(cap)), a.active, a.lists[SenderQ(a.active)];
      if q == [] then b.tasks[r] == a.tasks[r].(state := SendBlocked, req := Some(Receive(cap)))
      else
        && 0 <= q[0] < TASKS && a.tasks[q[0]].req.Some? && a.tasks[q[0]].req.value.Send?
        && b.tasks[q[0]] == a.tasks[q[0]].(state := ReplBlocked)
        && var text := Truncate(a.tasks[q[0]].req.value.msg, cap);
          b.tasks[r] == a.tasks[r].(state := Ready, req := None, result := Received(a.tasks[q[0]].id, text, |text|))
  {
    hide Placed, Letters, Slots;
    ReceiveInv(a, cap);
    if a.lists[SenderQ(a.active)] != [] { HeadSender(a); }
  }

  lemma ReplyOutcome(a: Kernel, x: int, tid: int, reply: seq<char>)
    requires Running(a) && 0 <= x < a.nextFree && a.tasks[x].state.ReplBlocked? && tid == a.tasks[x].id
    ensures CanHandle(a, Reply(tid, reply)) && a.tasks[x].req.Some?
    ensures a.tasks[x].req.value.Send? && Partners(a, Reply(tid, reply)) == {x}
    ensures
      var b, t := Handle(a, Reply(tid, reply)), a.tasks[x];
      b.tasks[x] ==
        t.(state := Ready, req := None, result := Replied(|reply|, Truncate(reply, t.req.value.replyCap)))
  {
    ReplyOk(a, tid);
    assert IdOk(a, x) && RequestOk(a, x, {a.active});
    ReplyExact(a, tid, reply, x);
  }

  lemma ReplierReady(a: Kernel, tid: int, reply: seq<char>)
    requires Running(a)
    ensures CanHandle(a, Reply(tid, reply)) && Handle(a, Reply(tid, reply)).tasks[a.active].state.Ready?
  {
    ReplyOk(a, tid);
  }

  /** The steps below change what the tasks keep to themselves, but not who they are. */
  ghost predicate SameCast(w: World, v: World) {
    && v.notifier == w.notifier && v.server == w.server && v.couriers == w.couriers
    && |v.loads| == |w.loads| && |v.str| == |w.str|
  }

  lemma CallAround(w: World, req: Request, v: World, moved: set<int>)
    requires Consistent(w) && Running(w.kernel) && Admissible(w.kernel, req) && Plain(req)
    requires CanHandle(w.kernel, req) && v.kernel == Handle(w.kernel, req) && SameCast(w, v)
    requires Mine(w, w.kernel.active) ==> w.kernel.active in moved && !req.Exit? && !req.AwaitEvent?
    requires forall x :: x in Partners(w.kernel, req) && Mine(w, x) && Lives(w.kernel, x) ==> x in moved
    requires req.Send? && req.tid == w.kernel.tasks[w.notifier].id ==> w.kernel.active in w.couriers
    ensures Around(w, v, moved) && Cast(v)
    ensures v.kernel.ticks == w.kernel.ticks && v.kernel.slots[CLOCK_TICK] == w.kernel.slots[CLOCK_TICK]
  {
    hide Running, Handle, NotifierOk, ServerOk, CourierOk, Partners;
    HandleQuiet(w.kernel, req);
    CouriersMine(w);
    assert Cast(v);
  }

  // ---------- The programs ----------

  ghost predicate CourierId(w: World, c: int, id: int)
    requires Cast(w)
  {
    0 <= c < |w.couriers| && CourierTask(w, c).id == id
  }

  /** The courier with this id, or -1. */
  ghost function CourierOf(w: World, id: int): (c: int)
    requires Cast(w)
    ensures c == -1 || CourierId(w, c, id)
    ensures c == -1 ==> forall d :: !CourierId(w, d, id)
  {
    if exists c :: CourierId(w, c, id) then
      var c :| CourierId(w, c, id);
      c
    else -1
  }

  /** The courier whose descriptor this is, or -1. */
  ghost function CourierAt(w: World, x: int): (c: int)
    ensures c == -1 || (0 <= c < |w.couriers| && w.couriers[c] == x)
    ensures c == -1 ==> x !in w.couriers
  {
    if x in w.couriers then
      var c :| 0 <= c < |w.couriers| && w.couriers[c] == x;
      c
    else -1
  }

  /** What the server has been told by a courier, if it has received something from one. */
  ghost function Informant(w: World): (c: int)
    requires Cast(w)
    ensures -1 <= c < |w.couriers|
  {
    if w.serverCall.Listening? then CourierOf(w, FromOf(w.kernel.tasks[w.server].result)) else -1
  }

  /** The running task makes the call that comes next in its program; an interrupt may come
      instead.  The server answers a courier at once, and anybody else when it likes.  Other
      tasks do anything but send to the notifier, reply to a courier, or await ticks. */
  ghost predicate Follows(w: World, req: Request) {
    && Cast(w) && 0 <= w.kernel.active < TASKS
    && (!req.Irq? ==>
          var x := w.kernel.active;
          var t := w.kernel.tasks[x];
          if x == w.notifier then
            req == match w.call
              case Awaiting => Receive(0)
              case Receiving => Reply(FromOf(t.result), TickMessage(w.str))
              case Replying => Request.AwaitEvent(CLOCK_TICK)
          else if x == w.server then
            if Informant(w) >= 0 then req == Reply(FromOf(t.result), [])
            else
              || req == Receive(TYPE_SIZE + MESSAGE_LENGTH)
              || (req.Reply? && CourierOf(w, req.target) == -1)
          else if x in w.couriers then
            req ==
              if w.loads[CourierAt(w, x)].Fetching? then
                Send(w.kernel.tasks[w.server].id, TextOf(t.result), TYPE_SIZE)
              else
                Send(w.kernel.tasks[w.notifier].id, COURIER_TYPE, MAX_MESSAGE_SIZE)
          else
            && (req.Send? ==> req.tid != w.kernel.tasks[w.notifier].id)
            && (req.Reply? ==> CourierOf(w, req.target) == -1)
            && (req.AwaitEvent? ==> req.event != CLOCK_TICK))
  }

  /** The world after the call, or after the interrupt. */
  ghost function After(w: World, req: Request): (v: World)
    requires Follows(w, req) && CanHandle(w.kernel, req)
    ensures v.kernel == Handle(w.kernel, req)
  {
    var x := w.kernel.active;
    var t, k := w.kernel.tasks[x], Handle(w.kernel, req);
    if req.Irq? then AllInterrupted(w.(kernel := Requeue(w.kernel)), req.devices)
    else if x == w.notifier then
      match w.call
      case Awaiting =>
        var data := DataOf(t.result);
        w.(kernel := k, call := Receiving, str := if |data| < MESSAGE_LENGTH then Written(w.str, data) else w.str)
      case Receiving => w.(kernel := k, call := Replying)
      case Replying => w.(kernel := k, call := Awaiting)
    else if x == w.server then
      w.(kernel := k,
         serverCall := if req.Receive? then Listening else Working,
         time := w.time + if Informant(w) >= 0 then ClockServers.StrLen(Payload(TextOf(t.result))) else 0)
    else if x in w.couriers then
      var c := CourierAt(w, x);
      w.(kernel := k, loads := w.loads[c := if w.loads[c].Fetching? then Delivering(TextOf(t.result)) else Fetching])
    else
      w.(kernel := k)
  }

  /** What the round is for the pipeline. */
  ghost function MovesOf(w: World, req: Request): (moves: seq<Move>)
    requires Follows(w, req)
  {
    var x := w.kernel.active;
    if req.Irq? then Timers(req.devices)
    else if x == w.notifier then
      match w.call
      case Awaiting => []
      case Receiving =>
        var c := CourierOf(w, FromOf(w.kernel.tasks[x].result));
        if c >= 0 then [HandOver(c)] else []
      case Replying => [Move.AwaitEvent]
    else if x == w.server && Informant(w) >= 0 then [Deliver(Informant(w))]
    else []
  }

  /** The running task is awake: it waits in no slot. */
  lemma Awake(w: World)
    requires Consistent(w) && Running(w.kernel)
    ensures Idle(w.kernel.tasks[w.kernel.active]) && w.kernel.active != w.kernel.slots[CLOCK_TICK]
  {
    assert SlotOk(w.kernel, CLOCK_TICK, {w.kernel.active});
  }

  /** The notifier never waits to send or for a reply. */
  lemma NotifierAwake(w: World)
    requires Consistent(w) && Running(w.kernel)
    ensures !Blocked(w.kernel.tasks[w.notifier])
  {
    assert SlotOk(w.kernel, CLOCK_TICK, {w.kernel.active});
  }

  lemma DifferentIds(w: World, x: int, y: int)
    requires Running(w.kernel) && Lives(w.kernel, x) && Lives(w.kernel, y) && x != y
    ensures w.kernel.tasks[x].id != w.kernel.tasks[y].id
  {
    IdLeads(w.kernel, x);
    IdLeads(w.kernel, y);
  }

  // ---------- Steps of the notifier ----------

  /** The notifier waits, or takes what is there. */
  lemma NotifierAwaits(w: World)
    requires Consistent(w) && Running(w.kernel) && w.kernel.active == w.notifier && w.call == Replying
    ensures CanAwait(w.kernel)
    ensures
      var v := w.(kernel := Await(w.kernel, CLOCK_TICK), call := Awaiting);
      Consistent(v) && Leads(Project(w), [Move.AwaitEvent], Project(v))
  {
    hide CourierOk, ServerOk, Served, HeardOk, Around, Messages, Unasked, Await;
    AwaitInv(w.kernel, CLOCK_TICK);
    Awake(w);
    ProjectMessages(w);
    var v := w.(kernel := Await(w.kernel, CLOCK_TICK), call := Awaiting);
    AwaitAround(w, v);
    AroundPath(w, v, w.notifier);
    AwaitServed(w.kernel);
    assert Project(v) == Next(Project(w), Move.AwaitEvent);
    assert [Move.AwaitEvent][1..] == [];
  }

  /** The task gets the first ticks in the buffer, or waits in the slot. */
  lemma AwaitServed(a: Kernel)
    requires Running(a) && a.slots[CLOCK_TICK] == NULL
    ensures CanAwait(a)
    ensures
      var b, n := Await(a, CLOCK_TICK), a.active;
      if a.ticks == [] then
        && b.tasks == a.tasks[n := a.tasks[n].(req := Some(Request.AwaitEvent(CLOCK_TICK)))]
        && b.slots == a.slots[CLOCK_TICK := n] && b.ticks == [] && b.nextFree == a.nextFree
      else
        && b.tasks == a.tasks[n := a.tasks[n].(state := Ready, req := None, result := Event(Batch(a.ticks)))]
        && b.slots == a.slots && b.ticks == Rest(a.ticks) && b.nextFree == a.nextFree
  {
    hide Placed, Letters;
    AwaitInv(a, CLOCK_TICK);
  }

  lemma AwaitAround(w: World, v: World)
    requires Consistent(w) && Running(w.kernel) && w.kernel.active == w.notifier && w.kernel.slots[CLOCK_TICK] == NULL
    requires CanAwait(w.kernel) && v == w.(kernel := Await(w.kernel, CLOCK_TICK), call := Awaiting)
    ensures Around(w, v, {w.notifier}) && Cast(v) && Unasked(v)
  {
    hide Running, Await, NotifierOk, ServerOk, CourierOk;
    AwaitServed(w.kernel);
    CouriersMine(w);
    assert Cast(v);
  }

  /** Whoever heads the notifier's queue is a courier that fetches. */
  lemma HeadFetches(w: World)
    requires Consistent(w) && Running(w.kernel) && w.kernel.active == w.notifier
    requires w.kernel.lists[SenderQ(w.notifier)] != []
    ensures var c := CourierAt(w, w.kernel.lists[SenderQ(w.notifier)][0]);
      c >= 0 && w.loads[c].Fetching? && CourierTask(w, c).state.RecvBlocked?
  {
    hide Inv, NotifierOk, ServerOk;
    HeadSends(w.kernel);
    var c := CourierAt(w, w.kernel.lists[SenderQ(w.notifier)][0]);
    assert CourierOk(w, c);
    DifferentIds(w, w.notifier, w.server);
  }

  /** The notifier reads its ticks into its message, and takes a courier if one waits. */
  lemma NotifierReceives(w: World)
    requires Consistent(w) && Running(w.kernel) && w.kernel.active == w.notifier && w.call == Awaiting
    ensures CanHandle(w.kernel, Receive(0)) && Follows(w, Receive(0))
    ensures var v := After(w, Receive(0));
      Consistent(v) && Project(v) == Project(w)
  {
    hide Running, Inv, Handle, CourierOk, ServerOk, HeardOk, Around, Unasked;
    var req := Receive(0);
    HandleInv(w.kernel, req);
    Awake(w);
    WrittenLength(w.str, w.kernel.tasks[w.notifier].result.data);
    ReceiveOutcome(w.kernel, 0);
    var v := After(w, req);
    NotifierTakes(w, v);
    assert NotifierOk(v) by {
      if w.kernel.lists[SenderQ(w.notifier)] != [] {
        HeadFetches(w);
        var c := CourierAt(w, w.kernel.lists[SenderQ(w.notifier)][0]);
        assert Served(v, c, CourierTask(w, c).id);
      }
    }
  }

  lemma NotifierTakes(w: World, v: World)
    requires Consistent(w) && Running(w.kernel) && w.kernel.active == w.notifier && w.call == Awaiting
    requires CanHandle(w.kernel, Receive(0)) && v.kernel == Handle(w.kernel, Receive(0)) && SameCast(w, v)
    requires v.loads == w.loads && v.serverCall == w.serverCall
    ensures v.kernel.ticks == w.kernel.ticks && v.kernel.slots[CLOCK_TICK] == w.kernel.slots[CLOCK_TICK]
    ensures Cast(v) && ServerOk(v) && Unasked(v) && SlotsOk(v) && CourierViews(v) == CourierViews(w)
    ensures forall c :: 0 <= c < |v.couriers| ==> CourierOk(v, c)
  {
    hide Running, Inv, Handle, NotifierOk, ServerOk, HeardOk;
    var q := w.kernel.lists[SenderQ(w.notifier)];
    ReceiveOutcome(w.kernel, 0);
    if q == [] {
      CallAround(w, Receive(0), v, {w.notifier});
      AroundPath(w, v, w.notifier);
    } else {
      HeadFetches(w);
      var c := CourierAt(w, q[0]);
      CallAround(w, Receive(0), v, {w.notifier, q[0]});
      AroundServer(w, v, {w.notifier, q[0]});
      assert CourierOk(w, c);
      OneCourier(w, v, w.notifier, c);
      assert CourierView(v, c) == CourierViews(w)[c];
    }
  }

  /** The courier gets the notifier's message. */
  lemma NotifierReplies(w: World, req: Request)
    requires Consistent(w) && Running(w.kernel) && w.kernel.active == w.notifier && w.call == Receiving
    requires Follows(w, req) && req.Reply?
    ensures CanHandle(w.kernel, req)
    ensures Consistent(After(w, req)) && Leads(Project(w), MovesOf(w, req), Project(After(w, req)))
  {
    hide Running, Inv, Handle, CourierOk, ServerOk, HeardOk, Around, Unasked, Messages;
    HandleInv(w.kernel, req);
    Awake(w);
    ProjectMessages(w);
    var v := After(w, req);
    var c := CourierOf(w, req.target);
    NotifierHands(w, v, c, req);
    ReplierReady(w.kernel, req.target, req.reply);
    var p := Project(w);
    assert Project(v).couriers == p.couriers[c := Carrying(w.str)];
    assert Project(v) == Next(p, HandOver(c));
    assert [HandOver(c)][1..] == [];
  }

  lemma NotifierHands(w: World, v: World, c: int, req: Request)
    requires Consistent(w) && Running(w.kernel) && w.kernel.active == w.notifier && w.call == Receiving
    requires Follows(w, req) && req.Reply? && c == CourierOf(w, req.target)
    requires CanHandle(w.kernel, req) && v.kernel == Handle(w.kernel, req) && SameCast(w, v)
    requires v.loads == w.loads && v.serverCall == w.serverCall
    ensures v.kernel.ticks == w.kernel.ticks && v.kernel.slots[CLOCK_TICK] == w.kernel.slots[CLOCK_TICK]
    ensures Cast(v) && ServerOk(v) && Unasked(v) && SlotsOk(v)
    ensures 0 <= c < |w.couriers| && CourierView(w, c) == AtNotifier
    ensures CourierViews(v) == CourierViews(w)[c := Carrying(w.str)]
    ensures forall d :: 0 <= d < |v.couriers| ==> CourierOk(v, d)
  {
    hide Running, Inv, Handle, ServerOk, HeardOk, Unasked, Partners, CourierViews;
    Awake(w);
    NotifierServes(w, c, req.target);
    var moved := {w.notifier, w.couriers[c]};
    ReplyOutcome(w.kernel, w.couriers[c], req.target, req.reply);
    CallAround(w, req, v, moved);
    AroundServer(w, v, moved);
    PayloadOf(w.str);
    assert CourierOk(w, c);
    assert Truncate(req.reply, MAX_MESSAGE_SIZE) == req.reply;
    OneCourier(w, v, w.notifier, c);
  }

  /** The notifier has received from a courier that now waits for its reply. */
  lemma NotifierServes(w: World, c: int, id: int)
    requires Consistent(w) && Running(w.kernel) && w.kernel.active == w.notifier && w.call == Receiving
    requires id == FromOf(w.kernel.tasks[w.notifier].result) && c == CourierOf(w, id)
    ensures Served(w, c, id)
  {
    hide Running, Inv, ServerOk, CourierOk;
    Awake(w);
    var d :| Served(w, d, id);
    assert CourierId(w, d, id);
    if c != d {
      DifferentIds(w, w.couriers[c], w.couriers[d]);
    }
  }

  // ---------- Steps of a courier ----------

  /** Courier c runs. */
  ghost predicate CourierRuns(w: World, c: int) {
    Consistent(w) && Running(w.kernel) && 0 <= c < |w.couriers| && w.kernel.active == w.couriers[c]
  }

  lemma CourierIs(w: World, c: int)
    requires CourierRuns(w, c)
    ensures CourierAt(w, w.kernel.active) == c && Mine(w, w.kernel.active) && Idle(CourierTask(w, c)) && CourierOk(w, c)
    ensures Lives(w.kernel, w.kernel.active) && Lives(w.kernel, w.notifier) && Lives(w.kernel, w.server)
    ensures Mine(w, w.notifier) && Mine(w, w.server) && forall d :: 0 <= d < |w.couriers| ==> Mine(w, w.couriers[d])
  {
    Awake(w);
  }

  /** The world after a call of courier c. */
  ghost predicate CourierCalls(w: World, c: int, req: Request, load: CourierCall, v: World) {
    && CourierRuns(w, c) && CanHandle(w.kernel, req) && |w.loads| == |w.couriers|
    && v == w.(kernel := Handle(w.kernel, req), loads := w.loads[c := load])
  }

  /** The courier asks the notifier; if the notifier already waits for one, it has got it. */
  lemma CourierFetches(w: World, c: int, req: Request)
    requires CourierRuns(w, c) && !w.loads[c].Fetching? && Follows(w, req) && !req.Irq?
    ensures CanHandle(w.kernel, req)
    ensures Consistent(After(w, req)) && Project(After(w, req)) == Project(w)
  {
    hide Running, Inv, Handle, NotifierOk, ServerOk, Unasked, NotifierView;
    CourierIs(w, c);
    HandleInv(w.kernel, req);
    if w.kernel.tasks[w.notifier].state.SendBlocked? {
      CourierComes(w, c, req, After(w, req));
    } else {
      CourierQueuesAtNotifier(w, c, req, After(w, req));
    }
  }

  /** The notifier waits in receive: it takes the courier. */
  lemma CourierComes(w: World, c: int, req: Request, v: World)
    requires CourierCalls(w, c, req, Fetching, v) && !w.loads[c].Fetching?
    requires req == Send(w.kernel.tasks[w.notifier].id, COURIER_TYPE, MAX_MESSAGE_SIZE)
    requires w.kernel.tasks[w.notifier].state.SendBlocked?
    ensures Consistent(v) && Project(v) == Project(w)
  {
    hide Running, Inv, Handle, ServerOk, HeardOk, Unasked;
    CourierIs(w, c);
    IdLeads(w.kernel, w.notifier);
    SendOutcome(w.kernel, req.tid, req.msg, req.replyCap);
    CallAround(w, req, v, {w.notifier, w.couriers[c]});
    AroundServer(w, v, {w.notifier, w.couriers[c]});
    OneCourier(w, v, w.notifier, c);
    assert CourierViews(w)[c] == AtNotifier;
    assert Served(v, c, CourierTask(w, c).id);
  }

  lemma CourierQueuesAtNotifier(w: World, c: int, req: Request, v: World)
    requires CourierCalls(w, c, req, Fetching, v) && !w.loads[c].Fetching?
    requires req == Send(w.kernel.tasks[w.notifier].id, COURIER_TYPE, MAX_MESSAGE_SIZE)
    requires !w.kernel.tasks[w.notifier].state.SendBlocked?
    ensures Consistent(v) && Project(v) == Project(w)
  {
    hide Running, Inv, Handle, NotifierOk, ServerOk, HeardOk, Unasked, Served;
    CourierIs(w, c);
    IdLeads(w.kernel, w.notifier);
    SendOutcome(w.kernel, req.tid, req.msg, req.replyCap);
    CallAround(w, req, v, {w.couriers[c]});
    CourierMoves(w, c, req, v);
    assert CourierViews(w)[c] == AtNotifier;
  }

  /** The call of courier c touches no other task of the path. */
  lemma CourierMoves(w: World, c: int, req: Request, v: World)
    requires CourierRuns(w, c) && SameCast(w, v) && CanHandle(w.kernel, req) && v.kernel == Handle(w.kernel, req)
    requires req.Send? && Partners(w.kernel, req) == {} && Cast(v) && CourierOk(v, c)
    requires v.call == w.call && v.str == w.str && v.serverCall == w.serverCall
    requires forall d :: 0 <= d < |w.couriers| && d != c ==> v.loads[d] == w.loads[d]
    ensures Consistent(v) && NotifierView(v) == NotifierView(w) && v.kernel.ticks == w.kernel.ticks
    ensures CourierViews(v) == CourierViews(w)[c := CourierView(v, c)]
  {
    hide Running, Inv, Handle, NotifierOk, ServerOk, HeardOk, Served;
    CourierIs(w, c);
    CallAround(w, req, v, {w.couriers[c]});
    CallAround(w, req, v, {w.notifier, w.couriers[c]});
    OneCourier(w, v, w.notifier, c);
    AroundServer(w, v, {w.couriers[c]});
    AroundNotifier(w, v, {w.couriers[c]});
  }

  /** The courier takes the ticks to the server; if the server already waits, it has got them. */
  lemma CourierCarries(w: World, c: int, req: Request)
    requires CourierRuns(w, c) && w.loads[c].Fetching? && Follows(w, req) && !req.Irq?
    ensures CanHandle(w.kernel, req)
    ensures Consistent(After(w, req)) && Project(After(w, req)) == Project(w)
  {
    hide Running, Inv, Handle, NotifierOk, ServerOk, Unasked, NotifierView;
    CourierIs(w, c);
    HandleInv(w.kernel, req);
    if w.kernel.tasks[w.server].state.SendBlocked? {
      CourierTells(w, c, req, After(w, req));
    } else {
      CourierQueuesAtServer(w, c, req, After(w, req));
    }
  }

  /** The server waits in receive: it gets the ticks. */
  lemma CourierTells(w: World, c: int, req: Request, v: World)
    requires CourierRuns(w, c) && w.loads[c].Fetching?
    requires CourierCalls(w, c, req, Delivering(TextOf(CourierTask(w, c).result)), v)
    requires req == Send(w.kernel.tasks[w.server].id, TextOf(CourierTask(w, c).result), TYPE_SIZE)
    requires w.kernel.tasks[w.server].state.SendBlocked?
    ensures Consistent(v) && Project(v) == Project(w)
  {
    hide Running, Inv, Handle, NotifierOk, NotifierView, Unasked, HeardOk, CourierView;
    CourierIs(w, c);
    IdLeads(w.kernel, w.server);
    DifferentIds(w, w.notifier, w.server);
    SendOutcome(w.kernel, req.tid, req.msg, req.replyCap);
    CallAround(w, req, v, {w.server, w.couriers[c]});
    AroundNotifier(w, v, {w.server, w.couriers[c]});
    OneCourier(w, v, w.server, c);
    CarriesOn(w, v, c);
    ServerHears(w, v, c);
  }

  lemma CourierQueuesAtServer(w: World, c: int, req: Request, v: World)
    requires CourierRuns(w, c) && w.loads[c].Fetching?
    requires CourierCalls(w, c, req, Delivering(TextOf(CourierTask(w, c).result)), v)
    requires req == Send(w.kernel.tasks[w.server].id, TextOf(CourierTask(w, c).result), TYPE_SIZE)
    requires !w.kernel.tasks[w.server].state.SendBlocked?
    ensures Consistent(v) && Project(v) == Project(w)
  {
    hide Running, Inv, Handle, NotifierOk, NotifierView, ServerOk, Unasked, HeardOk, CourierView;
    CourierIs(w, c);
    IdLeads(w.kernel, w.server);
    SendOutcome(w.kernel, req.tid, req.msg, req.replyCap);
    CallAround(w, req, v, {w.couriers[c]});
    CourierMoves(w, c, req, v);
    CarriesOn(w, v, c);
  }

  /** What the courier was told it now carries. */
  lemma CarriesOn(w: World, v: World, c: int)
    requires Cast(w) && Cast(v) && 0 <= c < |w.couriers| == |v.couriers| && w.loads[c].Fetching?
    requires Idle(CourierTask(w, c)) && Blocked(CourierTask(v, c))
    requires v.loads[c] == Delivering(TextOf(CourierTask(w, c).result))
    ensures CourierView(v, c) == CourierViews(w)[c]
  {
  }

  /** The server has received from courier c, and from no other. */
  lemma ServerHears(w: World, v: World, c: int)
    requires Cast(w) && Running(w.kernel) && SameCast(w, v) && Cast(v) && 0 <= c < |w.couriers|
    requires forall d :: 0 <= d < |w.couriers| ==> CourierTask(v, d).id == CourierTask(w, d).id
    requires v.loads[c].Delivering? && CourierTask(v, c).state.ReplBlocked?
    requires
      var t := v.kernel.tasks[v.server];
      Idle(t) && t.result.Received? && t.result.from == CourierTask(w, c).id && t.result.text == v.loads[c].buffer
    requires v.serverCall == Listening
    ensures ServerOk(v)
  {
    hide Running;
    var result := v.kernel.tasks[v.server].result;
    forall d | 0 <= d < |w.couriers|
      ensures HeardOk(v, d, result)
    {
      if d != c {
        DifferentIds(w, w.couriers[c], w.couriers[d]);
      }
    }
  }

  // ---------- Steps of the server ----------

  /** Whoever heads the server's queue is a courier that delivers, or no task of the path. */
  lemma HeadDelivers(w: World)
    requires Consistent(w) && Running(w.kernel) && w.kernel.active == w.server
    requires w.kernel.lists[SenderQ(w.server)] != []
    ensures var x := w.kernel.lists[SenderQ(w.server)][0];
      var c := CourierAt(w, x);
      && 0 <= x < w.kernel.nextFree && x != w.server && x != w.notifier && w.kernel.tasks[x].state.RecvBlocked?
      && (c >= 0 ==>
            && w.loads[c].Delivering? && |w.loads[c].buffer| == TYPE_SIZE + MESSAGE_LENGTH
            && CourierTask(w, c).req == Some(Send(w.kernel.tasks[w.server].id, w.loads[c].buffer, TYPE_SIZE)))
  {
    hide Inv, ServerOk;
    HeadSends(w.kernel);
    NotifierAwake(w);
    var c := CourierAt(w, w.kernel.lists[SenderQ(w.server)][0]);
    if c >= 0 {
      assert CourierOk(w, c);
      DifferentIds(w, w.notifier, w.server);
    }
  }

  ghost predicate ServerRuns(w: World) {
    Consistent(w) && Running(w.kernel) && w.kernel.active == w.server
  }

  /** What the server has taken from x is what x sends. */
  ghost predicate TakenFrom(w: World, v: World, x: int) {
    && Cast(v) && Lives(w.kernel, x) && w.kernel.tasks[x].req.Some? && w.kernel.tasks[x].req.value.Send?
    && var t, text := v.kernel.tasks[v.server], Truncate(w.kernel.tasks[x].req.value.msg, TYPE_SIZE + MESSAGE_LENGTH);
      Idle(t) && t.result == Received(w.kernel.tasks[x].id, text, |text|)
  }

  lemma ServerTakes(w: World, v: World, x: int)
    requires ServerRuns(w) && SameCast(w, v) && v.loads == w.loads && v.serverCall == Listening
    requires w.kernel.lists[SenderQ(w.server)] != [] && x == w.kernel.lists[SenderQ(w.server)][0]
    requires TakenFrom(w, v, x) && v.kernel.tasks[x] == w.kernel.tasks[x].(state := ReplBlocked)
    requires forall d :: 0 <= d < |w.couriers| ==> CourierTask(v, d).id == CourierTask(w, d).id
    ensures ServerOk(v)
  {
    hide Running, Inv, NotifierOk;
    HeadDelivers(w);
    var c := CourierAt(w, x);
    if c >= 0 {
      ServerHears(w, v, c);
    } else {
      forall d | 0 <= d < |w.couriers|
        ensures HeardOk(v, d, v.kernel.tasks[v.server].result)
      {
        DifferentIds(w, w.couriers[d], x);
      }
    }
  }

  /** The server waits, or takes its first sender. */
  lemma ServerReceives(w: World, req: Request)
    requires ServerRuns(w) && Follows(w, req) && req.Receive?
    ensures CanHandle(w.kernel, req)
    ensures Consistent(After(w, req)) && Project(After(w, req)) == Project(w)
  {
    hide Running, Inv, Handle, Consistent, NotifierView, CourierViews;
    HandleInv(w.kernel, req);
    ServerListens(w, req, After(w, req));
  }

  lemma ServerListens(w: World, req: Request, v: World)
    requires ServerRuns(w) && req == Receive(TYPE_SIZE + MESSAGE_LENGTH) && CanHandle(w.kernel, req)
    requires v == w.(kernel := Handle(w.kernel, req), serverCall := Listening)
    ensures Consistent(v) && NotifierView(v) == NotifierView(w) && CourierViews(v) == CourierViews(w)
    ensures v.kernel.ticks == w.kernel.ticks
  {
    hide Running, Inv, Handle, NotifierOk, NotifierView, Unasked, HeardOk, Served;
    var q := w.kernel.lists[SenderQ(w.server)];
    ReceiveOutcome(w.kernel, req.cap);
    CouriersMine(w);
    if q == [] {
      CallAround(w, req, v, {w.server});
      AroundNotifier(w, v, {w.server});
      AroundCouriers(w, v, {w.server});
    } else {
      HeadDelivers(w);
      CallAround(w, req, v, {w.server, q[0]});
      AroundNotifier(w, v, {w.server, q[0]});
      ServerTakes(w, v, q[0]);
      ServerTakesFrom(w, v, q[0]);
    }
  }

  lemma ServerTakesFrom(w: World, v: World, x: int)
    requires ServerRuns(w) && Around(w, v, {w.server, x}) && v.loads == w.loads
    requires w.kernel.lists[SenderQ(w.server)] != [] && x == w.kernel.lists[SenderQ(w.server)][0]
    requires v.kernel.tasks[x] == w.kernel.tasks[x].(state := ReplBlocked)
    ensures CourierViews(v) == CourierViews(w)
    ensures forall d :: 0 <= d < |v.couriers| ==> CourierOk(v, d)
  {
    hide Running, Inv, NotifierOk, ServerOk;
    HeadDelivers(w);
    CouriersMine(w);
    var c := CourierAt(w, x);
    if c >= 0 {
      assert CourierOk(w, c);
      OneCourier(w, v, w.server, c);
      assert CourierView(v, c) == CourierViews(w)[c];
    } else {
      AroundCouriers(w, v, {w.server, x});
    }
  }

  /** The server has received from a courier that now waits for its reply. */
  lemma ServerServes(w: World, c: int)
    requires ServerRuns(w) && c == Informant(w) && c >= 0
    ensures
      var result := w.kernel.tasks[w.server].result;
      && CourierTask(w, c).state.ReplBlocked? && CourierTask(w, c).id == FromOf(result)
      && w.loads[c] == Delivering(TextOf(result)) && CourierOk(w, c)
      && CourierViews(w)[c] == Carrying(Payload(TextOf(result)))
  {
    hide Inv, NotifierOk, Unasked;
    Awake(w);
    assert HeardOk(w, c, w.kernel.tasks[w.server].result);
  }

  lemma ServerAnswers(w: World, v: World, c: int, reply: seq<char>)
    requires ServerRuns(w) && 0 <= c < |w.couriers| && w.loads[c].Delivering? && CourierTask(w, c).state.ReplBlocked?
    requires SameCast(w, v) && v.loads == w.loads
    ensures
      var req := Reply(CourierTask(w, c).id, reply);
      CanHandle(w.kernel, req) && (v.kernel == Handle(w.kernel, req) ==>
        && Around(w, v, {w.server, w.couriers[c]}) && Idle(v.kernel.tasks[w.server])
        && v.kernel.ticks == w.kernel.ticks && v.kernel.slots[CLOCK_TICK] == w.kernel.slots[CLOCK_TICK]
        && CourierOk(v, c) && CourierView(v, c) == AtNotifier)
  {
    hide Running, Inv, Handle, NotifierOk, ServerOk, Unasked, Partners;
    var req := Reply(CourierTask(w, c).id, reply);
    CouriersMine(w);
    assert CourierOk(w, c);
    ReplyOutcome(w.kernel, w.couriers[c], req.target, reply);
    ReplierReady(w.kernel, req.target, reply);
    if v.kernel == Handle(w.kernel, req) {
      CallAround(w, req, v, {w.server, w.couriers[c]});
    }
  }

  lemma ServerFrees(w: World, v: World, c: int, req: Request)
    requires ServerRuns(w) && Follows(w, req) && req.Reply? && c == Informant(w) && c >= 0
    requires CanHandle(w.kernel, req) && v.kernel == Handle(w.kernel, req) && SameCast(w, v)
    requires v.loads == w.loads && v.serverCall == Working && v.call == w.call && v.str == w.str
    ensures v.kernel.ticks == w.kernel.ticks && Consistent(v) && NotifierView(v) == NotifierView(w)
    ensures CourierViews(v) == CourierViews(w)[c := AtNotifier]
  {
    hide Running, Inv, Handle, NotifierOk, Unasked, Served, HeardOk, NotifierView, CourierOk, CourierView;
    ServerServes(w, c);
    ServerAnswers(w, v, c, req.reply);
    AroundNotifier(w, v, {w.server, w.couriers[c]});
    OneCourier(w, v, w.server, c);
  }

  /** The courier has delivered and is free to fetch again; the server has counted the ticks. */
  lemma ServerCounts(w: World, req: Request)
    requires ServerRuns(w) && Follows(w, req) && req.Reply? && Informant(w) >= 0
    ensures CanHandle(w.kernel, req)
    ensures Consistent(After(w, req)) && Leads(Project(w), MovesOf(w, req), Project(After(w, req)))
  {
    hide Running, Inv, Handle, Consistent, NotifierView, CourierViews, Messages;
    var c := Informant(w);
    HandleInv(w.kernel, req);
    ServerServes(w, c);
    ProjectMessages(w);
    ServerFrees(w, After(w, req), c, req);
    assert Project(After(w, req)) == Next(Project(w), Deliver(c));
    assert [Deliver(c)][1..] == [];
  }

  /** Replies to others than couriers reach nobody on the path. */
  lemma ReplyElsewhere(w: World, tid: int, reply: seq<char>)
    requires Consistent(w) && Running(w.kernel) && CourierOf(w, tid) == -1
    ensures 0 <= w.kernel.active < TASKS
    ensures forall x :: x in Partners(w.kernel, Reply(tid, reply)) ==> !Mine(w, x)
  {
    hide Running, Inv, NotifierOk;
    NotifierAwake(w);
    ReplierReady(w.kernel, tid, reply);
    assert 0 <= w.kernel.active < TASKS;
    forall x | x in w.couriers
      ensures CourierId(w, CourierAt(w, x), w.kernel.tasks[x].id)
    {
    }
  }

  lemma ServerReplies(w: World, req: Request)
    requires ServerRuns(w) && Follows(w, req) && req.Reply? && Informant(w) == -1
    ensures CanHandle(w.kernel, req)
    ensures Consistent(After(w, req)) && Project(After(w, req)) == Project(w)
  {
    hide Running, Inv, Handle, NotifierOk, Unasked, Served, HeardOk, CourierOk, Partners;
    HandleInv(w.kernel, req);
    Awake(w);
    ReplyElsewhere(w, req.target, req.reply);
    ReplierReady(w.kernel, req.target, req.reply);
    var v := After(w, req);
    CallAround(w, req, v, {w.server});
    AroundNotifier(w, v, {w.server});
    AroundCouriers(w, v, {w.server});
  }

  // ---------- Steps of other tasks ----------

  ghost predicate StrangerRuns(w: World, req: Request) {
    && Consistent(w) && Running(w.kernel) && !Mine(w, w.kernel.active) && Admissible(w.kernel, req)
    && Follows(w, req) && !req.Irq?
  }

  /** Whom another task rendezvouses with is none of ours, except that it may reach the server. */
  lemma StrangerPartners(w: World, req: Request)
    requires StrangerRuns(w, req)
    ensures Sized(w.kernel) && 0 <= w.kernel.active < TASKS
    ensures forall x :: x in Partners(w.kernel, req) && Mine(w, x) && Lives(w.kernel, x) ==>
      && x == w.server && req.Send? && w.kernel.tasks[x].state.SendBlocked?
      && req.tid == w.kernel.tasks[x].id
  {
    hide Running, Inv, Served, HeardOk, Unasked, SlotsOk;
    match req {
      case Send(tid, _, _) =>
        forall x | x in w.couriers
          ensures !w.kernel.tasks[x].state.SendBlocked?
        {
          assert CourierOk(w, CourierAt(w, x));
        }
      case Receive(_) =>
        if w.kernel.lists[SenderQ(w.kernel.active)] != [] { StrangerHears(w); }
      case Reply(tid, reply) => ReplyElsewhere(w, tid, reply);
      case _ =>
    }
  }

  /** Nobody of the path sends to another task. */
  lemma StrangerHears(w: World)
    requires Consistent(w) && Running(w.kernel) && !Mine(w, w.kernel.active)
    requires w.kernel.lists[SenderQ(w.kernel.active)] != []
    ensures !Mine(w, w.kernel.lists[SenderQ(w.kernel.active)][0])
  {
    hide Inv, Unasked, SlotsOk;
    HeadSends(w.kernel);
    NotifierAwake(w);
    DifferentIds(w, w.notifier, w.kernel.active);
    DifferentIds(w, w.server, w.kernel.active);
    forall y | y in w.couriers
      ensures CourierOk(w, CourierAt(w, y))
    {
    }
  }

  lemma StrangerSteps(w: World, req: Request)
    requires StrangerRuns(w, req)
    ensures CanHandle(w.kernel, req)
    ensures Consistent(After(w, req)) && Project(After(w, req)) == Project(w)
  {
    hide Running, Inv, Handle, NotifierOk, ServerOk, CourierOk, Unasked, Partners;
    HandleInv(w.kernel, req);
    StrangerPartners(w, req);
    var v := After(w, req);
    if req.Send? && req.tid == w.kernel.tasks[w.server].id && w.kernel.tasks[w.server].state.SendBlocked? {
      StrangerTells(w, req);
    } else {
      CallAround(w, req, v, {});
      Stutter(w, v);
    }
  }

  /** The server hears from somebody who is no courier. */
  lemma StrangerTells(w: World, req: Request)
    requires StrangerRuns(w, req) && CanHandle(w.kernel, req)
    requires req.Send? && req.tid == w.kernel.tasks[w.server].id && w.kernel.tasks[w.server].state.SendBlocked?
    ensures Consistent(After(w, req)) && Project(After(w, req)) == Project(w)
  {
    hide Running, Inv, Handle, NotifierOk, CourierOk, Unasked, Partners, Served;
    StrangerPartners(w, req);
    var v := After(w, req);
    CallAround(w, req, v, {w.server});
    AroundNotifier(w, v, {w.server});
    AroundCouriers(w, v, {w.server});
    IdLeads(w.kernel, w.server);
    SendOutcome(w.kernel, req.tid, req.msg, req.replyCap);
    RunnerLives(w.kernel);
    CouriersMine(w);
    Named(w, w.kernel.active);
    var result := v.kernel.tasks[v.server].result;
    assert result.Received? && result.from == w.kernel.tasks[w.kernel.active].id;
    forall c | 0 <= c < |w.couriers|
      ensures HeardOk(v, c, result)
    {
      assert Mine(w, w.couriers[c]) && CourierTask(v, c).id == CourierTask(w, c).id;
    }
    assert CourierViews(v) == CourierViews(w);
  }

  lemma RunnerLives(a: Kernel)
    requires Running(a)
    ensures Lives(a, a.active)
  {
  }

  lemma Named(w: World, x: int)
    requires Cast(w) && Running(w.kernel) && Lives(w.kernel, x) && x !in w.couriers
    ensures forall c :: 0 <= c < |w.couriers| ==> CourierTask(w, c).id != w.kernel.tasks[x].id
  {
    hide Running;
    forall c | 0 <= c < |w.couriers|
      ensures CourierTask(w, c).id != w.kernel.tasks[x].id
    {
      DifferentIds(w, w.couriers[c], x);
    }
  }

  // ---------- Rounds and runs ----------

  lemma InterruptStep(w: World, req: Request)
    requires Consistent(w) && Running(w.kernel) && Follows(w, req) && req.Irq?
    ensures CanHandle(w.kernel, req)
    ensures Consistent(After(w, req)) && Leads(Project(w), MovesOf(w, req), Project(After(w, req)))
  {
    hide Running, Inv, Consistent, Project, Leads;
    HandleInv(w.kernel, req);
    RequeueStutter(w);
    InterruptsMoves(w.(kernel := Requeue(w.kernel)), req.devices);
  }

  lemma NotifierStep(w: World, req: Request)
    requires Consistent(w) && Running(w.kernel) && Follows(w, req) && !req.Irq? && w.kernel.active == w.notifier
    ensures CanHandle(w.kernel, req)
    ensures Consistent(After(w, req)) && Leads(Project(w), MovesOf(w, req), Project(After(w, req)))
  {
    hide Running, Inv, Consistent, Project, Handle;
    match w.call {
      case Awaiting => NotifierReceives(w);
      case Receiving => NotifierReplies(w, req);
      case Replying => AwaitStep(w, req);
    }
  }

  lemma AwaitStep(w: World, req: Request)
    requires Consistent(w) && Running(w.kernel) && w.kernel.active == w.notifier && w.call == Replying
    requires Follows(w, req) && !req.Irq?
    ensures CanHandle(w.kernel, req)
    ensures Consistent(After(w, req)) && Leads(Project(w), MovesOf(w, req), Project(After(w, req)))
  {
    hide Inv, Consistent, Project, Await, Leads;
    NotifierAwaits(w);
  }

  lemma CallStep(w: World, req: Request)
    requires Consistent(w) && Running(w.kernel) && Follows(w, req) && !req.Irq? && w.kernel.active != w.notifier
    requires Admissible(w.kernel, req)
    ensures CanHandle(w.kernel, req)
    ensures Consistent(After(w, req)) && Leads(Project(w), MovesOf(w, req), Project(After(w, req)))
  {
    hide Running, Inv, Consistent, Project, Handle;
    var x := w.kernel.active;
    if x == w.server {
      if Informant(w) >= 0 {
        ServerCounts(w, req);
      } else if req.Receive? {
        ServerReceives(w, req);
      } else {
        ServerReplies(w, req);
      }
    } else if x in w.couriers {
      if w.loads[CourierAt(w, x)].Fetching? {
        CourierCarries(w, CourierAt(w, x), req);
      } else {
        CourierFetches(w, CourierAt(w, x), req);
      }
    } else {
      StrangerSteps(w, req);
    }
  }

  /** One round: the kernel dispatches, the task that runs follows its program, and its
      call is handled. */
  ghost predicate WorldStep(w: World, req: Request, v: World) {
    && CanStep(w.kernel, req)
    && var d := w.(kernel := Dispatch(w.kernel));
      Follows(d, req) && CanHandle(d.kernel, req) && v == After(d, req)
  }

  /** A round of the kernel keeps the world consistent, and takes the pipeline that is seen
      in it along the moves that the round stands for. */
  lemma RoundMoves(w: World, req: Request, v: World)
    requires Consistent(w) && WorldStep(w, req, v)
    ensures Succeeds(w.kernel, req, v.kernel)
    ensures Consistent(v) && Leads(Project(w), MovesOf(w.(kernel := Dispatch(w.kernel)), req), Project(v))
  {
    hide Running, Inv, Consistent, Project, Handle, Follows, After, MovesOf, Leads;
    DispatchStutter(w);
    var d := w.(kernel := Dispatch(w.kernel));
    if req.Irq? {
      InterruptStep(d, req);
    } else if d.kernel.active == d.notifier {
      NotifierStep(d, req);
    } else {
      CallStep(d, req);
    }
  }

  lemma RoundConserves(w: World, req: Request, v: World)
    requires Consistent(w) && Conserves(Project(w)) && WorldStep(w, req, v)
    ensures Consistent(v) && Conserves(Project(v))
  {
    hide Running, Inv, Consistent, Project, Conserves, Handle, Follows, After, MovesOf, Leads;
    RoundMoves(w, req, v);
    LeadsConserves(Project(w), MovesOf(w.(kernel := Dispatch(w.kernel)), req), Project(v));
  }

  ghost predicate IsWorldRun(worlds: seq<World>, reqs: seq<Request>) {
    && |worlds| == |reqs| + 1
    && forall i {:trigger reqs[i]} :: 0 <= i < |reqs| ==> WorldStep(worlds[i], reqs[i], worlds[i + 1])
  }

  /** Over any run, every timer interrupt since the start is in the kernel's buffer, with the
      notifier, with a courier, counted by the clock server, or was lost to a full buffer. */
  lemma {:induction false} ClockConserves(worlds: seq<World>, reqs: seq<Request>, n: nat)
    requires IsWorldRun(worlds, reqs) && n <= |reqs|
    requires Consistent(worlds[0]) && Conserves(Project(worlds[0]))
    ensures Consistent(worlds[n]) && Conserves(Project(worlds[n]))
  {
    hide WorldStep, Consistent, Project, Conserves;
    if n > 0 {
      ClockConserves(worlds, reqs, n - 1);
      RoundConserves(worlds[n - 1], reqs[n - 1], worlds[n]);
    }
  }

  // ---------- A world to start from ----------

  /** Notifier, couriers and server have been made and have yet to make their first calls;
      ticks already in the kernel's buffer count as taken. */
  ghost predicate Starts(w: World) {
    && Inv(w.kernel, {}) && Cast(w) && Unasked(w) && AreTicks(w.kernel.ticks)
    && w.kernel.slots[CLOCK_TICK] == NULL && (forall e :: 0 <= e < EVENTS ==> !Mine(w, w.kernel.slots[e]))
    && w.call == Replying && w.serverCall == Working
    && (forall x :: Mine(w, x) ==> 0 <= x < TASKS && w.kernel.tasks[x].state.Ready?)
    && (forall c :: 0 <= c < |w.couriers| ==> w.loads[c].Starting?)
    && w.time == 0 && w.lost == 0 && w.taken == |w.kernel.ticks|
  }

  lemma {:induction false} NothingCarried(couriers: seq<Courier>)
    requires forall c :: 0 <= c < |couriers| ==> couriers[c].AtNotifier?
    ensures Carried(couriers) == 0
  {
    if couriers != [] {
      NothingCarried(couriers[1..]);
    }
  }

  lemma StartConserves(w: World)
    requires Starts(w)
    ensures Consistent(w) && Conserves(Project(w))
  {
    hide Placed, Letters, Requests, Ids, Unasked;
    CouriersMine(w);
    NothingCarried(CourierViews(w));
  }

  /** The first task has made n others, of a lower priority, and all are ready. */
  ghost predicate Crew(a: Kernel, n: nat) {
    && Sized(a) && Inv(a, {}) && a.nextFree == n + 1 && a.ticks == []
    && (forall e :: 0 <= e < EVENTS ==> a.slots[e] == NULL)
    && (forall x :: 0 <= x <= n ==> a.tasks[x].state.Ready?)
    && a.tasks[0].priority == SYSTEM_FIRST && a.lists[SYSTEM_FIRST] == [0]
    && forall p :: SYSTEM_FIRST < p < PRIORITIES ==> a.lists[p] == []
  }

  lemma BootCrew(memory: seq<Task>)
    requires |memory| == TASKS
    ensures Crew(Boot(memory), 0)
  {
    BootInv(memory);
  }

  lemma CrewGrows(a: Kernel, n: nat, prio: int)
    requires Crew(a, n) && n + 1 < TASKS && 0 <= prio < SYSTEM_FIRST
    ensures CanStep(a, Create(prio)) && Crew(Step(a, Create(prio)), n + 1)
  {
    hide Inv;
    TopIs(a.lists, SYSTEM_FIRST);
    DispatchInv(a);
    assert Dispatch(a).active == 0;
  }

  lemma StepReachable(a: Kernel, req: Request)
    requires Reachable(a) && CanStep(a, req)
    ensures Reachable(Step(a, req))
  {
    hide Inv, CanStep, Step, Boot;
    var memory: seq<Task>, states: seq<Kernel>, reqs: seq<Request> :|
      |memory| == TASKS && IsRun(states, reqs) && states[0] == Boot(memory) && a == states[|reqs|];
    RunGrows(states, reqs, req);
  }

  lemma RunGrows(states: seq<Kernel>, reqs: seq<Request>, req: Request)
    requires IsRun(states, reqs) && CanStep(states[|reqs|], req)
    ensures IsRun(states + [Step(states[|reqs|], req)], reqs + [req])
  {
    hide CanStep, Step, Inv;
    var b := Step(states[|reqs|], req);
    var longer, all := states + [b], reqs + [req];
    assert Sized(b) by { SizedStep(states[|reqs|], req); }
    forall i | 0 <= i < |all|
      ensures Round(longer, all, i)
    {
      if i < |reqs| {
        assert Round(states, reqs, i);
      }
    }
  }

  lemma SizedStep(a: Kernel, req: Request)
    requires CanStep(a, req)
    ensures Sized(Step(a, req))
  {
  }

  lemma BootReachable(memory: seq<Task>)
    requires |memory| == TASKS
    ensures Reachable(Boot(memory))
  {
    BootInv(memory);
    var states, reqs: seq<Request> := [Boot(memory)], [];
    assert IsRun(states, reqs) && states[|reqs|] == Boot(memory);
  }

  lemma {:induction false} CrewReachable(memory: seq<Task>, n: nat) returns (a: Kernel)
    requires |memory| == TASKS && n < TASKS
    ensures Reachable(a) && Crew(a, n)
    decreases n
  {
    hide Boot, Reachable, Crew, CanStep, Step;
    if n == 0 {
      BootCrew(memory);
      BootReachable(memory);
      a := Boot(memory);
    } else {
      var before := CrewReachable(memory, n - 1);
      CrewGrows(before, n - 1, 0);
      StepReachable(before, Create(0));
      a := Step(before, Create(0));
    }
  }

  /** From boot, whatever is in memory, a world with any number of couriers can be reached. */
  lemma SomeStart(memory: seq<Task>, couriers: nat) returns (w: World)
    requires |memory| == TASKS && couriers + 3 <= TASKS
    ensures Reachable(w.kernel) && Starts(w) && |w.couriers| == couriers
    ensures forall x :: 0 <= x < w.kernel.nextFree ==> w.kernel.tasks[x].state.Ready?
  {
    hide Reachable, Inv;
    var a := CrewReachable(memory, couriers + 2);
    w := World(a, 1, 2, seq(couriers, c => c + 3), Replying, seq(MESSAGE_LENGTH, _ => '\0'),
               seq(couriers, _ => Starting), Working, 0, 0, 0);
  }
}
