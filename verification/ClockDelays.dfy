/** The clock server's delays on the kernel: over any run, a task that has asked for a delay
    stays blocked until as many timer interrupts have been taken as it asked for. */
module ClockDelays {
  import opened KernelModel
  import opened KernelInvariant
  import opened KernelRuns
  import opened TickPath
  import opened ClockTasks
  import opened ClockServers
  import Heaps

  const LETTER_SIZE := TYPE_SIZE + MESSAGE_LENGTH
  const NUMBER_SIZE := 8

  // Message types, least significant byte first.
  const TIME_TYPE: seq<char> := ['\U{11}', '\U{0}', '\U{2}', '\U{1}']
  const DELAY_TYPE: seq<char> := ['\U{12}', '\U{0}', '\U{2}', '\U{3}']
  const DELAY_UNTIL_TYPE: seq<char> := ['\U{13}', '\U{0}', '\U{2}', '\U{3}']
  const TIME_REPLY_TYPE: seq<char> := ['\U{14}', '\U{0}', '\U{2}', '\U{3}']
  const WAKEUP_TYPE: seq<char> := ['\U{15}', '\U{0}', '\U{2}', '\U{3}']
  const INVALID_TYPE: seq<char> := ['\U{1}', '\U{0}', '\U{0}', '\U{1}']

  /** The server's heap, and all that it has been asked for and has done about it. */
  datatype Books = Books(pending: multiset<Heaps.Entry>, asked: multiset<Heaps.Entry>, woken: seq<Wakeup>)

  /** The world, with the message buffer and the heap that the server keeps to itself. */
  datatype Desk = Desk(world: World, incoming: seq<char>, books: Books)

  // ---------- Messages ----------

  function ByteOf(c: char): (b: nat) {
    c as int % 256
  }

  /** The signed number behind the message type. */
  function NumberIn(text: seq<char>): (n: int)
    requires |text| >= NUMBER_SIZE
  {
    var low := ByteOf(text[4]) + 0x100 * ByteOf(text[5]) + 0x1_0000 * ByteOf(text[6]);
    var high := ByteOf(text[7]);
    low + 0x100_0000 * if high < 128 then high else high - 256
  }

  /** The four bytes of an int, the least significant first. */
  function Bytes(n: int): (b: seq<char>)
    requires -0x8000_0000 <= n <= 0x7fff_ffff
    ensures |b| == 4
  {
    var u := if n < 0 then n + 0x1_0000_0000 else n;
    [(u % 0x100) as char, (u / 0x100 % 0x100) as char, (u / 0x1_0000 % 0x100) as char, (u / 0x100_0000) as char]
  }

  /** The int with the same low 32 bits. */
  function Wrapped(x: int): (n: int)
    ensures -0x8000_0000 <= n <= 0x7fff_ffff && (-0x8000_0000 <= x <= 0x7fff_ffff ==> n == x)
  {
    (x + 0x8000_0000) % 0x1_0000_0000 - 0x8000_0000
  }

  function Decode(text: seq<char>): (m: ClockServers.Message)
    requires |text| == LETTER_SIZE
  {
    var kind := text[..TYPE_SIZE];
    if kind == TICK_TYPE then ClockTick(Payload(text))
    else if kind == TIME_TYPE then ClockTime
    else if kind == DELAY_TYPE then ClockDelay(NumberIn(text))
    else if kind == DELAY_UNTIL_TYPE then ClockDelayUntil(NumberIn(text))
    else Unexpected
  }

  /** What is in the server's buffer once the text has been copied over it. */
  function CopiedOver(incoming: seq<char>, text: seq<char>): (r: seq<char>)
    requires |incoming| == LETTER_SIZE
    ensures |r| == LETTER_SIZE
  {
    if |text| <= LETTER_SIZE then text + incoming[|text|..] else text[..LETTER_SIZE]
  }

  // ---------- The server's program ----------

  /** What the server has just received, read in its buffer, and who sent it. */
  ghost function Heard(u: Desk): (m: ClockServers.Message)
    requires Cast(u.world) && |u.incoming| == LETTER_SIZE
  {
    Decode(CopiedOver(u.incoming, TextOf(u.world.kernel.tasks[u.world.server].result)))
  }

  ghost function Sender(u: Desk): (id: int)
    requires Cast(u.world)
  {
    FromOf(u.world.kernel.tasks[u.world.server].result)
  }

  ghost predicate IsAnswer(m: ClockServers.Message, time: nat, reply: seq<char>) {
    match m
    case ClockTick(_) => reply == []
    case ClockTime => reply == TIME_REPLY_TYPE + Bytes(Wrapped(time))
    case Unexpected => |reply| == NUMBER_SIZE && reply[..TYPE_SIZE] == INVALID_TYPE
    case _ => false
  }

  /** A least entry whose time has come. */
  ghost predicate IsDue(pending: multiset<Heaps.Entry>, e: Heaps.Entry, time: int) {
    e in pending && e.1 <= time && forall f :: f in pending ==> e.1 <= f.1
  }

  /** The loop that wakes delayed tasks: the least due entry is taken out and its task
      answered; when none is due, the server receives. */
  ghost predicate Wakes(books: Books, time: int, req: Request, books2: Books) {
    if NoneDue(books.pending, time) then req == Receive(LETTER_SIZE) && books2 == books
    else
      && req.Reply? && |req.reply| == NUMBER_SIZE && req.reply[..TYPE_SIZE] == WAKEUP_TYPE
      && exists e :: IsDue(books.pending, e, time) && req.target == e.0 && books2 == Awakened(books, e, time)
  }

  ghost function Awakened(books: Books, e: Heaps.Entry, time: int): (books2: Books) {
    Books(books.pending - multiset{e}, books.asked, books.woken + [Wakeup(e.0, e.1, time)])
  }

  /** The books once the server has read a message. */
  ghost function Noted(books: Books, id: int, m: ClockServers.Message, time: int): (books2: Books) {
    books.(pending := books.pending + Asked(id, m, time), asked := books.asked + Asked(id, m, time))
  }

  /** The call that the running server makes, and its heap and buffer afterwards. */
  ghost predicate ServerTurn(u: Desk, req: Request, incoming2: seq<char>, books2: Books)
    requires Cast(u.world) && |u.incoming| == LETTER_SIZE
  {
    var w := u.world;
    if w.serverCall.Listening? then
      var m := Heard(u);
      && incoming2 == CopiedOver(u.incoming, TextOf(w.kernel.tasks[w.server].result))
      && if m.ClockDelay? || m.ClockDelayUntil? then Wakes(Noted(u.books, Sender(u), m, w.time), w.time, req, books2)
         else req.Reply? && req.target == Sender(u) && IsAnswer(m, w.time, req.reply) && books2 == u.books
    else
      incoming2 == u.incoming && Wakes(u.books, w.time, req, books2)
  }

  /** The task with this id has sent to the server and waits for the reply. */
  ghost predicate Asleep(w: World, id: int)
    requires Cast(w)
  {
    var x := id % TASKS;
    && Lives(w.kernel, x) && !Mine(w, x)
    && var t := w.kernel.tasks[x];
      && t.id == id && t.state.ReplBlocked? && t.req.Some? && t.req.value.Send?
      && t.req.value.tid == w.kernel.tasks[w.server].id
  }

  /** A message to the server that begins with a type, and not that of ticks. */
  ghost predicate Polite(msg: seq<char>) {
    |msg| >= TYPE_SIZE && msg[..TYPE_SIZE] != TICK_TYPE
  }

  /** Other tasks do not answer in the server's place, nor report ticks to it. */
  ghost predicate Discreet(w: World, req: Request)
    requires Cast(w)
  {
    && (req.Reply? ==> !Asleep(w, req.target))
    && (req.Send? && req.tid == w.kernel.tasks[w.server].id ==> Polite(req.msg))
  }

  /** One round, with the server following its whole program. */
  ghost predicate DeskStep(u: Desk, req: Request, v: Desk) {
    && WorldStep(u.world, req, v.world) && |u.incoming| == LETTER_SIZE
    && var d := u.world.(kernel := Dispatch(u.world.kernel));
      && Cast(d)
      && if !req.Irq? && d.kernel.active == d.server then ServerTurn(u.(world := d), req, v.incoming, v.books)
         else
           && v.incoming == u.incoming && v.books == u.books
           && (!req.Irq? && !Mine(d, d.kernel.active) ==> Discreet(d, req))
  }

  // ---------- What every round keeps ----------

  /** Every delayed task is asleep, and is in the heap once. */
  ghost predicate Sleepers(w: World, pending: multiset<Heaps.Entry>)
    requires Cast(w)
  {
    && (forall e :: e in pending ==> Asleep(w, e.0))
    && (forall e, f :: e in pending && f in pending && e.0 == f.0 ==> e == f)
    && (forall e :: e in pending ==> pending[e] == 1)
  }

  /** What the server has received from somebody who is no courier; that task is asleep, and
      not delayed already. */
  ghost predicate NewAsker(w: World, pending: multiset<Heaps.Entry>)
    requires Cast(w)
  {
    var result := w.kernel.tasks[w.server].result;
    w.serverCall.Listening? && Idle(w.kernel.tasks[w.server]) && CourierOf(w, FromOf(result)) == -1 ==>
      && Asleep(w, FromOf(result)) && Polite(TextOf(result))
      && forall e :: e in pending ==> e.0 != FromOf(result)
  }

  /** Whoever is queued at the server with a message of ticks is a courier. */
  ghost predicate PoliteQueue(w: World)
    requires Cast(w)
  {
    forall x {:trigger w.kernel.tasks[x]} ::
      0 <= x < w.kernel.nextFree && SendsTo(w.kernel.tasks[x], w.kernel.tasks[w.server].id) && x !in w.couriers ==>
        Polite(w.kernel.tasks[x].req.value.msg)
  }

  ghost predicate Delays(u: Desk) {
    var w := u.world;
    && Consistent(w) && |u.incoming| == LETTER_SIZE
    && Sleepers(w, u.books.pending) && NewAsker(w, u.books.pending) && PoliteQueue(w)
    && (w.serverCall.Listening? ==> NoneDue(u.books.pending, w.time))
  }

  // ---------- What a call leaves alone ----------

  /** Whoever is blocked, or waits in no slot and does not run, is as it was. */
  ghost predicate Rouses(a: Kernel, b: Kernel) {
    && Sized(a) && Sized(b) && b.nextFree == a.nextFree
    && forall x :: 0 <= x < TASKS ==>
        || b.tasks[x] == a.tasks[x]
        || (a.tasks[x].state.Active? && b.tasks[x].state.Ready? && b.tasks[x].id == a.tasks[x].id)
  }

  lemma InterruptRouses(a: Kernel, d: Interrupt)
    requires Inv(a, {})
    ensures CanInterrupt(a) && Rouses(a, HandleInterrupt(a, d))
  {
    hide Inv;
    InterruptMoves(a, d);
    InterruptReadies(a, d);
  }

  lemma InterruptReadies(a: Kernel, d: Interrupt)
    requires Inv(a, {})
    ensures CanInterrupt(a)
    ensures forall x :: 0 <= x < TASKS ==>
      HandleInterrupt(a, d).tasks[x] == a.tasks[x] || HandleInterrupt(a, d).tasks[x].state.Ready?
  {
    hide Inv;
    if d.Timer? {
      TimerServed(a);
    } else {
      OthersWoken(a, d);
    }
  }

  lemma {:induction false} InterruptsRouse(a: Kernel, devices: seq<Interrupt>)
    requires Inv(a, {})
    ensures CanInterrupt(a) && Rouses(a, HandleInterrupts(a, devices))
    decreases |devices|
  {
    hide Inv, HandleInterrupt;
    InterruptRousesAny(a);
    if devices != [] {
      InterruptInv(a, devices[0]);
      InterruptRouses(a, devices[0]);
      InterruptsRouse(HandleInterrupt(a, devices[0]), devices[1..]);
    }
  }

  lemma InterruptRousesAny(a: Kernel)
    requires Inv(a, {})
    ensures CanInterrupt(a)
  {
    InterruptMoves(a, Timer);
  }

  /** Live tasks keep their ids, unless the running one ends itself. */
  lemma LivesOn(a: Kernel, req: Request)
    requires Running(a) && Admissible(a, req)
    ensures CanHandle(a, req)
    ensures
      var b := Handle(a, req);
      b.nextFree >= a.nextFree && forall x :: Lives(a, x) && (x == a.active ==> !req.Exit?) ==>
        Lives(b, x) && b.tasks[x].id == a.tasks[x].id
  {
    hide Inv, HandleInterrupts, Await, SendTo, ReceiveNext, ReplyTo, CreateTask, ExitTask;
    HandleInv(a, req);
    if req.Irq? {
      IrqMoves(a, req.devices);
    } else if req.AwaitEvent? && req.event == CLOCK_TICK {
      AwaitInv(a, CLOCK_TICK);
      RunnerLives(a);
      AwaitMoves(a, CLOCK_TICK);
    } else {
      HandleQuiet(a, req);
    }
  }

  /** Nobody but the caller comes to wait in a sender queue. */
  lemma SendersStay(a: Kernel, req: Request)
    requires Running(a) && Admissible(a, req)
    ensures CanHandle(a, req)
    ensures
      var b := Handle(a, req);
      forall x :: 0 <= x < b.nextFree && b.tasks[x].state.RecvBlocked? ==>
        || (x < a.nextFree && b.tasks[x] == a.tasks[x])
        || (x == a.active && req.Send? && b.tasks[x].req == Some(req))
  {
    hide Inv, HandleInterrupts, SendTo, ReceiveNext, ReplyTo, CreateTask, ExitTask;
    HandleInv(a, req);
    if req.Irq? {
      RequeueInv(a);
      InterruptsRouse(Requeue(a), req.devices);
    } else if req.AwaitEvent? && req.event == CLOCK_TICK {
      AwaitInv(a, CLOCK_TICK);
      AwaitMoves(a, CLOCK_TICK);
    } else {
      HandleQuiet(a, req);
    }
  }

  /** Until somebody replies to its id, a task that is asleep stays so. */
  lemma SleeperStays(w: World, req: Request, v: World, id: int)
    requires Cast(w) && Cast(v) && Running(w.kernel) && Admissible(w.kernel, req) && CanHandle(w.kernel, req)
    requires v.kernel == Handle(w.kernel, req) && SameCast(w, v)
    requires v.kernel.tasks[w.server].id == w.kernel.tasks[w.server].id
    requires Asleep(w, id) && !(req.Reply? && req.target == id)
    ensures Asleep(v, id)
  {
    hide Inv, Handle, Cast;
    LivesOn(w.kernel, req);
    ReplyBlockedStep(w.kernel, req, id % TASKS);
  }

  // ---------- One round for the server's clients ----------

  /** The task that runs follows its program, and both before and after its call all is well. */
  ghost predicate Turn(w: World, req: Request, v: World) {
    && Consistent(w) && Running(w.kernel) && Admissible(w.kernel, req) && Follows(w, req) && CanHandle(w.kernel, req)
    && v == After(w, req) && Consistent(v)
  }

  lemma TurnKernel(w: World, req: Request, v: World)
    requires Turn(w, req, v)
    ensures SameCast(w, v) && v.kernel == Handle(w.kernel, req)
    ensures forall x :: Mine(w, x) ==> Lives(w.kernel, x) && v.kernel.tasks[x].id == w.kernel.tasks[x].id
  {
    hide Inv, Running, Handle, NotifierOk, ServerOk, CourierOk, Unasked, SlotsOk;
    LivesOn(w.kernel, req);
    CouriersMine(w);
    if req.Irq? {
      SameAllInterrupted(w.(kernel := Requeue(w.kernel)), req.devices);
    }
    forall x | Mine(w, x)
      ensures Lives(w.kernel, x) && v.kernel.tasks[x].id == w.kernel.tasks[x].id
    {
    }
  }

  lemma {:induction false} SameAllInterrupted(w: World, devices: seq<Interrupt>)
    requires CanInterrupt(w.kernel)
    ensures var v := AllInterrupted(w, devices);
      v.(kernel := w.kernel, taken := w.taken, lost := w.lost) == w && v.taken >= w.taken
    decreases |devices|
  {
    hide HandleInterrupt;
    if devices != [] {
      SameAllInterrupted(Interrupted(w, devices[0]), devices[1..]);
    }
  }

  lemma QueuePolite(w: World, req: Request, v: World)
    requires Turn(w, req, v) && PoliteQueue(w) && (!req.Irq? && !Mine(w, w.kernel.active) ==> Discreet(w, req))
    ensures PoliteQueue(v)
  {
    hide Inv, Running, Handle, After, NotifierOk, ServerOk, CourierOk, Unasked, SlotsOk;
    TurnKernel(w, req, v);
    SendersStay(w.kernel, req);
    assert Mine(w, w.server);
  }

  /** A turn of another task leaves the server's task as it was, or sends to it. */
  lemma ServerTouched(w: World, req: Request, v: World)
    requires Turn(w, req, v) && !req.Irq? && w.kernel.active != w.server
    ensures
      || v.kernel.tasks[w.server] == w.kernel.tasks[w.server]
      || (req.Send? && req.tid == w.kernel.tasks[w.server].id && w.kernel.tasks[w.server].state.SendBlocked?)
  {
    hide Inv, Running, Handle, NotifierOk, CourierOk, Unasked, SlotsOk;
    TurnKernel(w, req, v);
    if req.AwaitEvent? && req.event == CLOCK_TICK {
      ServerNotWaiting(w, req);
    } else {
      HandleQuiet(w.kernel, req);
      if w.server in Partners(w.kernel, req) {
        ServerPartner(w, req);
      }
    }
  }

  lemma ServerNotWaiting(w: World, req: Request)
    requires Consistent(w) && Running(w.kernel) && req == Request.AwaitEvent(CLOCK_TICK) && w.kernel.active != w.server
    ensures CanHandle(w.kernel, req) && Handle(w.kernel, req).tasks[w.server] == w.kernel.tasks[w.server]
  {
    hide Inv, NotifierOk, ServerOk, CourierOk, Unasked, SlotsOk, Await;
    AwaitInv(w.kernel, CLOCK_TICK);
    RunnerLives(w.kernel);
    AwaitMoves(w.kernel, CLOCK_TICK);
  }

  /** The server is the partner only of a task that sends to it while it waits. */
  lemma ServerPartner(w: World, req: Request)
    requires Consistent(w) && Running(w.kernel) && Follows(w, req) && !req.Irq? && w.kernel.active != w.server
    requires w.server in Partners(w.kernel, req)
    ensures req.Send? && req.tid == w.kernel.tasks[w.server].id && w.kernel.tasks[w.server].state.SendBlocked?
  {
    hide Inv, NotifierOk, CourierOk, Unasked, SlotsOk, HeardOk, Follows;
    if req.Receive? && w.kernel.lists[SenderQ(w.kernel.active)] != [] {
      HeadSends(w.kernel);
    }
  }

  /** An interrupt at most schedules the server's task. */
  lemma ServerInterrupted(w: World, req: Request, v: World)
    requires Turn(w, req, v) && req.Irq?
    ensures Alike(w.kernel.tasks[w.server], v.kernel.tasks[w.server])
  {
    hide Inv, NotifierOk, ServerOk, CourierOk, Unasked;
    TurnKernel(w, req, v);
    RequeueStutter(w);
    var k := Requeue(w.kernel);
    InterruptsRouse(k, req.devices);
    ServerInNoSlot(w.(kernel := k));
  }

  lemma ServerInNoSlot(w: World)
    requires Calm(w)
    ensures !w.kernel.tasks[w.server].state.Active?
  {
    hide NotifierOk, ServerOk, CourierOk, Unasked;
    assert RequestOk(w.kernel, w.server, {});
  }

  lemma SameCouriers(w: World, req: Request, v: World, id: int)
    requires Turn(w, req, v)
    ensures CourierOf(v, id) == -1 <==> CourierOf(w, id) == -1
  {
    hide Turn, Inv, Running, Handle, NotifierOk, ServerOk, CourierOk, Unasked, SlotsOk;
    TurnCast(w, req, v);
    TurnKernel(w, req, v);
    CouriersMine(w);
    assert forall c :: CourierId(w, c, id) <==> CourierId(v, c, id);
  }

  lemma TurnCast(w: World, req: Request, v: World)
    requires Turn(w, req, v)
    ensures Cast(w) && Cast(v)
  {
  }

  /** While the server does not run, what it has received stays, or is what it is sent now. */
  lemma AskerStays(w: World, req: Request, v: World, pending: multiset<Heaps.Entry>)
    requires Turn(w, req, v) && Sleepers(w, pending) && NewAsker(w, pending)
    requires req.Irq? || w.kernel.active != w.server
    requires !req.Irq? && !Mine(w, w.kernel.active) ==> Discreet(w, req)
    requires v.serverCall == w.serverCall
    requires forall id :: Asleep(w, id) ==> Asleep(v, id)
    ensures NewAsker(v, pending)
  {
    hide Inv, Running, Handle, NotifierOk, ServerOk, CourierOk, Unasked, SlotsOk;
    TurnKernel(w, req, v);
    var result := v.kernel.tasks[v.server].result;
    SameCouriers(w, req, v, FromOf(result));
    if req.Irq? {
      ServerInterrupted(w, req, v);
    } else {
      ServerTouched(w, req, v);
      if v.kernel.tasks[w.server] != w.kernel.tasks[w.server] {
        AskerSends(w, req, v, pending);
      }
    }
  }

  /** A task sends to the server, which waits: the server gets its letter. */
  lemma AskerSends(w: World, req: Request, v: World, pending: multiset<Heaps.Entry>)
    requires Turn(w, req, v) && Sleepers(w, pending)
    requires !req.Irq? && w.kernel.active != w.server && (!Mine(w, w.kernel.active) ==> Discreet(w, req))
    requires req.Send? && req.tid == w.kernel.tasks[w.server].id && w.kernel.tasks[w.server].state.SendBlocked?
    ensures NewAsker(v, pending)
  {
    hide Inv, Running, Handle, NotifierOk, CourierOk, Unasked, SlotsOk, HeardOk, Served;
    TurnKernel(w, req, v);
    RunnerLives(w.kernel);
    CouriersMine(w);
    IdLeads(w.kernel, w.server);
    IdLeads(w.kernel, w.kernel.active);
    LivesOn(w.kernel, req);
    SendOutcome(w.kernel, req.tid, req.msg, req.replyCap);
    Awake(w);
    if Polite(req.msg) { PoliteCut(req.msg); }
    var x := w.kernel.active;
    assert x in w.couriers ==> CourierId(v, CourierAt(w, x), w.kernel.tasks[x].id);
  }

  lemma PoliteCut(msg: seq<char>)
    requires Polite(msg)
    ensures Polite(Truncate(msg, LETTER_SIZE))
  {
    assert Truncate(msg, LETTER_SIZE)[..TYPE_SIZE] == msg[..TYPE_SIZE];
  }

  // ---------- Turns of other tasks ----------

  /** Nobody but the server replies to a task that is asleep. */
  lemma NobodyElse(w: World, req: Request, v: World, id: int)
    requires Turn(w, req, v) && Asleep(w, id) && !req.Irq? && w.kernel.active != w.server
    requires !Mine(w, w.kernel.active) ==> Discreet(w, req)
    ensures !(req.Reply? && req.target == id)
  {
    hide Inv, Running, Handle, After, ServerOk, CourierOk, Unasked, SlotsOk;
    if w.kernel.active == w.notifier && req.Reply? {
      Awake(w);
      var c :| Served(w, c, FromOf(w.kernel.tasks[w.notifier].result));
      IdLeads(w.kernel, w.couriers[c]);
      CouriersMine(w);
    }
  }

  lemma AllStayAsleep(w: World, req: Request, v: World)
    requires Turn(w, req, v) && (req.Irq? || w.kernel.active != w.server)
    requires !req.Irq? && !Mine(w, w.kernel.active) ==> Discreet(w, req)
    ensures forall id :: Asleep(w, id) ==> Asleep(v, id)
  {
    hide Inv, Running, Handle, After, Consistent, Asleep;
    TurnKernel(w, req, v);
    TurnCast(w, req, v);
    CouriersMine(w);
    forall id | Asleep(w, id)
      ensures Asleep(v, id)
    {
      if !req.Irq? {
        NobodyElse(w, req, v, id);
      }
      SleeperStays(w, req, v, id);
    }
  }

  /** Without a turn of the server, nothing happens to its clients. */
  lemma OtherTurn(u: Desk, req: Request, v: Desk)
    requires Delays(u) && Turn(u.world, req, v.world) && (req.Irq? || u.world.kernel.active != u.world.server)
    requires !req.Irq? && !Mine(u.world, u.world.kernel.active) ==> Discreet(u.world, req)
    requires v.incoming == u.incoming && v.books == u.books
    ensures Delays(v)
  {
    hide Inv, Running, Handle, After, Consistent, Asleep, NewAsker, PoliteQueue, Mine, Discreet;
    SameServer(u.world, req, v.world);
    TurnCast(u.world, req, v.world);
    AllStayAsleep(u.world, req, v.world);
    AskerStays(u.world, req, v.world, u.books.pending);
    QueuePolite(u.world, req, v.world);
  }

  lemma SameServer(w: World, req: Request, v: World)
    requires Turn(w, req, v) && (req.Irq? || w.kernel.active != w.server)
    ensures v.serverCall == w.serverCall && v.time == w.time
  {
    hide Inv, Running, Handle, Consistent;
    if req.Irq? {
      RequeueStutter(w);
      SameAllInterrupted(w.(kernel := Requeue(w.kernel)), req.devices);
    }
  }

  // ---------- Turns of the server ----------

  /** Reading the message type tells the couriers' ticks from everything else. */
  lemma TickIsCouriers(u: Desk)
    requires Delays(u) && ServerRuns(u.world) && u.world.serverCall.Listening?
    ensures Heard(u).ClockTick? <==> Informant(u.world) >= 0
    ensures Informant(u.world) >= 0 ==>
      Heard(u).str == Payload(TextOf(u.world.kernel.tasks[u.world.server].result))
  {
    hide Inv, Running, NotifierOk, CourierOk, Unasked, SlotsOk, Sleepers, PoliteQueue;
    Awake(u.world);
    var text := TextOf(u.world.kernel.tasks[u.world.server].result);
    if Informant(u.world) >= 0 {
      CourierHeard(u.world, Informant(u.world));
      assert CopiedOver(u.incoming, text) == text && text[..TYPE_SIZE] == TICK_TYPE;
    } else {
      assert CopiedOver(u.incoming, text)[..TYPE_SIZE] == text[..TYPE_SIZE];
    }
  }

  lemma CourierHeard(w: World, c: int)
    requires ServerRuns(w) && w.serverCall.Listening? && c == Informant(w) && c >= 0
    ensures IsTickMessage(TextOf(w.kernel.tasks[w.server].result))
    ensures CourierTask(w, c).id == FromOf(w.kernel.tasks[w.server].result)
  {
    hide Inv, Running, NotifierOk, Unasked, SlotsOk;
    ServerServes(w, c);
  }

  /** The server receives: it waits, or takes the first letter in its queue. */
  lemma AskerReceived(w: World, req: Request, v: World, pending: multiset<Heaps.Entry>)
    requires Turn(w, req, v) && w.kernel.active == w.server && req == Receive(LETTER_SIZE)
    requires Sleepers(w, pending) && PoliteQueue(w)
    ensures NewAsker(v, pending)
  {
    hide Inv, Running, Handle, NotifierOk, ServerOk, CourierOk, Unasked, SlotsOk, HeardOk, Served;
    TurnKernel(w, req, v);
    LivesOn(w.kernel, req);
    CouriersMine(w);
    ReceiveOutcome(w.kernel, LETTER_SIZE);
    if w.kernel.lists[SenderQ(w.server)] != [] {
      HeadSends(w.kernel);
      HeadDelivers(w);
      var x := w.kernel.lists[SenderQ(w.server)][0];
      IdLeads(w.kernel, x);
      assert x in w.couriers ==> CourierId(v, CourierAt(w, x), w.kernel.tasks[x].id);
      if x !in w.couriers {
        PoliteCut(w.kernel.tasks[x].req.value.msg);
      }
    }
  }

  /** What the server's turn does to its own variables. */
  lemma ServerAfter(w: World, req: Request, v: World)
    requires Turn(w, req, v) && !req.Irq? && w.kernel.active == w.server
    ensures v.serverCall == if req.Receive? then Listening else Working
    ensures v.time ==
      w.time + if Informant(w) >= 0 then StrLen(Payload(TextOf(w.kernel.tasks[w.server].result))) else 0
  {
    hide Inv, Running, Handle, Consistent, StrLen;
  }

  /** The server replies to one task; the others sleep on. */
  lemma RestStayAsleep(w: World, req: Request, v: World, pending: multiset<Heaps.Entry>)
    requires Turn(w, req, v) && !req.Irq? && w.kernel.active == w.server && Sleepers(w, pending)
    requires req.Reply? ==> forall e :: e in pending ==> e.0 != req.target
    ensures Sleepers(v, pending)
  {
    hide Inv, Running, Handle, After, Consistent, Asleep;
    TurnKernel(w, req, v);
    TurnCast(w, req, v);
    CouriersMine(w);
    forall e | e in pending
      ensures Asleep(v, e.0)
    {
      SleeperStays(w, req, v, e.0);
    }
  }

  lemma WakesKeeps(w: World, req: Request, v: World, books: Books, books2: Books)
    requires Turn(w, req, v) && !req.Irq? && w.kernel.active == w.server
    requires Sleepers(w, books.pending) && PoliteQueue(w) && Wakes(books, w.time, req, books2)
    ensures Sleepers(v, books2.pending) && NewAsker(v, books2.pending)
    ensures v.serverCall.Listening? ==> NoneDue(books2.pending, w.time)
  {
    hide Inv, Running, Handle, After, Consistent, Asleep, PoliteQueue;
    ServerAfter(w, req, v);
    if NoneDue(books.pending, w.time) {
      RestStayAsleep(w, req, v, books.pending);
      AskerReceived(w, req, v, books.pending);
    } else {
      var e :| IsDue(books.pending, e, w.time) && req.target == e.0 && books2 == Awakened(books, e, w.time);
      OneLess(w, books.pending, e);
      RestStayAsleep(w, req, v, books2.pending);
    }
  }

  lemma OneLess(w: World, pending: multiset<Heaps.Entry>, e: Heaps.Entry)
    requires Cast(w) && Sleepers(w, pending) && e in pending
    ensures Sleepers(w, pending - multiset{e})
    ensures forall f :: f in pending - multiset{e} ==> f in pending && f.0 != e.0
  {
    hide Asleep;
    var rest := pending - multiset{e};
    assert forall f :: f in rest ==> f in pending && rest[f] <= pending[f];
    assert rest[e] == 0;
  }

  lemma OneMore(w: World, pending: multiset<Heaps.Entry>, e: Heaps.Entry)
    requires Cast(w) && Sleepers(w, pending) && Asleep(w, e.0) && forall f :: f in pending ==> f.0 != e.0
    ensures Sleepers(w, pending + multiset{e})
  {
    hide Asleep;
    var more := pending + multiset{e};
    assert forall f :: f in more ==> f in pending || f == e;
    assert e !in pending;
  }

  /** A delay asked for joins the sleepers. */
  lemma AskedSleeps(u: Desk)
    requires Delays(u) && ServerRuns(u.world) && u.world.serverCall.Listening?
    requires Heard(u).ClockDelay? || Heard(u).ClockDelayUntil?
    ensures Informant(u.world) == -1 && Sleepers(u.world, u.books.pending + Asked(Sender(u), Heard(u), u.world.time))
  {
    hide Inv, Running, Consistent, Asleep, Sleepers, PoliteQueue, Heard;
    TickIsCouriers(u);
    ServerIdle(u.world);
    match Heard(u)
    case ClockDelay(ticks) => OneMore(u.world, u.books.pending, (Sender(u), ticks + u.world.time));
    case ClockDelayUntil(when) => OneMore(u.world, u.books.pending, (Sender(u), when));
  }

  lemma ServerIdle(w: World)
    requires ServerRuns(w)
    ensures Cast(w) && Idle(w.kernel.tasks[w.server])
  {
    Awake(w);
  }

  /** A turn of the server keeps its clients asleep, but for those it answers. */
  lemma ServerTurnKeeps(u: Desk, req: Request, v: Desk)
    requires Delays(u) && Turn(u.world, req, v.world) && !req.Irq? && u.world.kernel.active == u.world.server
    requires ServerTurn(u, req, v.incoming, v.books)
    ensures Delays(v)
  {
    hide Inv, Running, Handle, After, Consistent, Asleep, Sleepers, NewAsker, PoliteQueue, Wakes, IsAnswer, Decode,
         CopiedOver, NoneDue;
    var w := u.world;
    QueuePolite(w, req, v.world);
    ServerAfter(w, req, v.world);
    TurnCast(w, req, v.world);
    if !w.serverCall.Listening? {
      WakesKeeps(w, req, v.world, u.books, v.books);
    } else if Heard(u).ClockDelay? || Heard(u).ClockDelayUntil? {
      AskedSleeps(u);
      WakesKeeps(w, req, v.world, Noted(u.books, Sender(u), Heard(u), w.time), v.books);
    } else {
      NotPending(u);
      RestStayAsleep(w, req, v.world, u.books.pending);
      NothingHeard(v.world, v.books.pending);
    }
  }

  /** Whoever has just been heard is not delayed. */
  lemma NotPending(u: Desk)
    requires Delays(u) && ServerRuns(u.world) && u.world.serverCall.Listening?
    ensures forall e :: e in u.books.pending ==> e.0 != Sender(u)
  {
    hide Inv, Running, NotifierOk, ServerOk, CourierOk, Unasked, SlotsOk, PoliteQueue;
    ServerIdle(u.world);
    var c := CourierOf(u.world, Sender(u));
    if c >= 0 {
      CouriersMine(u.world);
      IdLeads(u.world.kernel, u.world.couriers[c]);
    }
  }

  lemma NothingHeard(v: World, pending: multiset<Heaps.Entry>)
    requires Cast(v) && v.serverCall == Working
    ensures NewAsker(v, pending)
  {
  }

  // ---------- Rounds and runs ----------

  lemma DispatchDelays(u: Desk)
    requires Delays(u) && Calm(u.world) && TopPriority(u.world.kernel.lists, PRIORITIES - 1) >= 0
    ensures CanDispatch(u.world.kernel) && Running(Dispatch(u.world.kernel))
    ensures Delays(u.(world := u.world.(kernel := Dispatch(u.world.kernel))))
  {
    hide Inv, Running, Consistent, Cast, TopPriority;
    DispatchStutter(u.world);
    DispatchMoves(u.world.kernel);
    DispatchPlaces(u.world.kernel);
    var d := u.world.(kernel := Dispatch(u.world.kernel));
    CastOf(u.world);
    CastOf(d);
    assert forall id :: CourierOf(d, id) == -1 <==> CourierOf(u.world, id) == -1 by {
      assert forall c, id :: CourierId(d, c, id) <==> CourierId(u.world, c, id) by { SameNames(u.world, d); }
    }
    assert forall id :: Asleep(u.world, id) ==> Asleep(d, id);
  }

  lemma CastOf(w: World)
    requires Consistent(w)
    ensures Cast(w) && Lives(w.kernel, w.server)
  {
  }

  lemma SameNames(w: World, d: World)
    requires Cast(w) && Cast(d) && d.couriers == w.couriers && Moves(w.kernel, d.kernel, {d.kernel.active})
    ensures forall c, id :: CourierId(d, c, id) <==> CourierId(w, c, id)
  {
  }

  lemma DispatchPlaces(a: Kernel)
    requires Inv(a, {}) && CanDispatch(a)
    ensures var t := Dispatch(a).active;
      0 <= t < a.nextFree && a.tasks[t].state.Ready? && Dispatch(a).tasks[t] == a.tasks[t].(state := Active)
  {
    DispatchPlaced(a);
  }

  /** The dispatched task makes its call from this desk. */
  ghost function Dispatched(u: Desk): (d: Desk)
    requires CanDispatch(u.world.kernel)
  {
    u.(world := u.world.(kernel := Dispatch(u.world.kernel)))
  }

  lemma StepIsTurn(u: Desk, req: Request, v: Desk)
    requires Delays(u) && DeskStep(u, req, v)
    ensures CanDispatch(u.world.kernel) && Delays(Dispatched(u)) && Turn(Dispatched(u).world, req, v.world)
  {
    hide Running, Inv, Consistent, Handle, Follows, After, Project, Leads, Sleepers, NewAsker, PoliteQueue;
    DispatchDelays(u);
    RoundMoves(u.world, req, v.world);
  }

  /** Every round keeps delayed tasks asleep and the server's heap in order. */
  lemma DeskKeeps(u: Desk, req: Request, v: Desk)
    requires Delays(u) && DeskStep(u, req, v)
    ensures Delays(v)
  {
    hide Delays, WorldStep, Turn, ServerTurn, Discreet, Mine;
    StepIsTurn(u, req, v);
    TurnCast(Dispatched(u).world, req, v.world);
    if !req.Irq? && Dispatched(u).world.kernel.active == u.world.server {
      ServerTurnKeeps(Dispatched(u), req, v);
    } else {
      OtherTurn(Dispatched(u), req, v);
    }
  }

  ghost predicate IsDeskRun(desks: seq<Desk>, reqs: seq<Request>) {
    && |desks| == |reqs| + 1
    && forall i {:trigger reqs[i]} :: 0 <= i < |reqs| ==> DeskStep(desks[i], reqs[i], desks[i + 1])
  }

  /** What the clock server keeps of its own: every delay asked for is pending or was served,
      once, and nobody was woken early. */
  ghost predicate Balanced(books: Books, time: int) {
    && books.asked == books.pending + multiset(ClockServers.Requests(books.woken))
    && NoneEarly(books.woken, time)
  }

  ghost predicate Sound(u: Desk) {
    Delays(u) && Conserves(Project(u.world)) && Balanced(u.books, u.world.time)
  }

  lemma NotedBalances(books: Books, id: int, m: ClockServers.Message, time: int)
    requires Balanced(books, time)
    ensures Balanced(Noted(books, id, m, time), time)
  {
    hide Asked, ClockServers.Requests;
  }

  lemma AwakenedBalances(books: Books, e: Heaps.Entry, time: int)
    requires Balanced(books, time) && IsDue(books.pending, e, time)
    ensures Balanced(Awakened(books, e, time), time)
  {
    hide ClockServers.Requests;
    var rest, woken := books.pending - multiset{e}, multiset(ClockServers.Requests(books.woken));
    RequestsAppend(books.woken, Wakeup(e.0, e.1, time));
    MoveEntry(books.asked, books.pending, rest, woken, e);
  }

  lemma WakesBalances(books: Books, time: int, req: Request, books2: Books)
    requires Balanced(books, time) && Wakes(books, time, req, books2)
    ensures Balanced(books2, time)
  {
    hide Balanced, Awakened, NoneDue;
    if books2 != books {
      var e :| IsDue(books.pending, e, time) && req.target == e.0 && books2 == Awakened(books, e, time);
      AwakenedBalances(books, e, time);
    }
  }

  /** A turn of the server keeps its books. */
  lemma BooksBalance(u: Desk, req: Request, v: Desk)
    requires DeskStep(u, req, v) && Delays(u) && Balanced(u.books, u.world.time)
    ensures Balanced(v.books, v.world.time)
  {
    hide WorldStep, Delays, Cast, Balanced, Wakes, Noted, Decode, CopiedOver, IsAnswer;
    TimeGrows(u, req, v);
    var d := Dispatched(u);
    if v.books != u.books {
      var noted := Noted(u.books, Sender(d), Heard(d), d.world.time);
      NotedBalances(u.books, Sender(d), Heard(d), d.world.time);
      WakesBalances(if d.world.serverCall.Listening? then noted else u.books, d.world.time, req, v.books);
    }
    StillBalanced(v.books, u.world.time, v.world.time);
  }

  lemma StillBalanced(books: Books, time: int, later: int)
    requires Balanced(books, time) && time <= later
    ensures Balanced(books, later)
  {
  }

  lemma TimeGrows(u: Desk, req: Request, v: Desk)
    requires Delays(u) && DeskStep(u, req, v)
    ensures CanDispatch(u.world.kernel) && v.world.time >= u.world.time
  {
    hide Running, Inv, Handle, Delays, ServerTurn, Discreet;
    StepIsTurn(u, req, v);
    var w := Dispatched(u).world;
    if req.Irq? || w.kernel.active != w.server {
      SameServer(w, req, v.world);
    } else {
      ServerAfter(w, req, v.world);
    }
  }

  /** Over any run, every delayed task is asleep and in the heap once, nobody in it is
      overdue while the server listens, and no tick is missing. */
  lemma {:induction false} DesksSound(desks: seq<Desk>, reqs: seq<Request>, n: nat)
    requires IsDeskRun(desks, reqs) && Sound(desks[0]) && n <= |reqs|
    ensures Sound(desks[n])
  {
    hide Sleepers, NewAsker, PoliteQueue, Consistent, Project, Conserves, WorldStep, ServerTurn;
    if n > 0 {
      DesksSound(desks, reqs, n - 1);
      assert DeskStep(desks[n - 1], reqs[n - 1], desks[n]);
      DeskKeeps(desks[n - 1], reqs[n - 1], desks[n]);
      BooksBalance(desks[n - 1], reqs[n - 1], desks[n]);
      RoundConserves(desks[n - 1].world, reqs[n - 1], desks[n].world);
    }
  }

  // ---------- Nobody is woken early, and nobody is forgotten ----------

  /** What has not been counted by the server yet has been taken: its time never runs ahead. */
  lemma TimeIsTaken(u: Desk)
    requires Sound(u)
    ensures u.world.time <= u.world.taken
  {
    hide Delays, Carried, Held;
  }

  /** Entries leave the heap only when the server's time has reached them. */
  lemma OnlyDueLeave(u: Desk, req: Request, v: Desk, e: Heaps.Entry)
    requires Delays(u) && DeskStep(u, req, v) && e in u.books.pending && u.world.time < e.1
    ensures e in v.books.pending
  {
    hide WorldStep, Delays, Cast, NoneDue, Decode, CopiedOver, IsAnswer;
  }

  lemma TakenGrows(u: Desk, req: Request, v: Desk)
    requires Delays(u) && DeskStep(u, req, v)
    ensures v.world.taken >= u.world.taken
  {
    hide Running, Inv, Handle, Delays, ServerTurn, Discreet;
    StepIsTurn(u, req, v);
    AfterTaken(Dispatched(u).world, req, v.world);
  }

  lemma AfterTaken(w: World, req: Request, v: World)
    requires Turn(w, req, v)
    ensures v.taken >= w.taken
  {
    hide Inv, Running, Handle, Consistent;
    if req.Irq? {
      RequeueStutter(w);
      SameAllInterrupted(w.(kernel := Requeue(w.kernel)), req.devices);
    }
  }

  /** A delayed task stays blocked, with its entry in the heap, as long as fewer timer
      interrupts have been taken than its wake time says. */
  lemma {:induction false} NotWokenEarly(desks: seq<Desk>, reqs: seq<Request>, e: Heaps.Entry, i: nat, n: nat)
    requires IsDeskRun(desks, reqs) && Sound(desks[0]) && i <= n <= |reqs|
    requires e in desks[i].books.pending && desks[n].world.taken < e.1
    ensures Delays(desks[n]) && e in desks[n].books.pending && Asleep(desks[n].world, e.0)
  {
    hide DeskStep, Consistent, Project, Conserves, NewAsker, PoliteQueue, Asleep;
    DesksSound(desks, reqs, n);
    if n > i {
      DesksSound(desks, reqs, n - 1);
      assert DeskStep(desks[n - 1], reqs[n - 1], desks[n]);
      TakenGrows(desks[n - 1], reqs[n - 1], desks[n]);
      NotWokenEarly(desks, reqs, e, i, n - 1);
      TimeIsTaken(desks[n - 1]);
      OnlyDueLeave(desks[n - 1], reqs[n - 1], desks[n], e);
    }
  }

  /** In this round the server reads a request of task id to be woken at `when`. */
  ghost predicate AsksFor(u: Desk, req: Request, id: int, when: int) {
    && CanDispatch(u.world.kernel) && !req.Irq?
    && var d := Dispatched(u);
      && Cast(d.world) && |d.incoming| == LETTER_SIZE
      && d.world.kernel.active == d.world.server && d.world.serverCall.Listening? && id == Sender(d)
      && (Heard(d) == ClockDelayUntil(when) || Heard(d) == ClockDelay(when - d.world.time))
  }

  /** The request joins the heap, unless its time has come already. */
  lemma AskedJoins(u: Desk, req: Request, v: Desk, id: int, when: int)
    requires Delays(u) && DeskStep(u, req, v) && AsksFor(u, req, id, when) && u.world.time < when
    ensures (id, when) in v.books.pending
  {
    hide WorldStep, Delays, Cast, NoneDue, Decode, CopiedOver, IsAnswer;
    var d := Dispatched(u);
    assert (id, when) in d.books.pending + Asked(Sender(d), Heard(d), d.world.time);
  }

  /** From the round in which the server reads its request on, a task stays blocked until as
      many timer interrupts have been taken as its wake time says. */
  lemma WakeTimeHolds(desks: seq<Desk>, reqs: seq<Request>, id: int, when: int, i: nat, n: nat)
    requires IsDeskRun(desks, reqs) && Sound(desks[0]) && i < n <= |reqs|
    requires AsksFor(desks[i], reqs[i], id, when) && desks[n].world.taken < when
    ensures Delays(desks[n]) && (id, when) in desks[n].books.pending && Asleep(desks[n].world, id)
  {
    hide DeskStep, Delays, AsksFor, Conserves, Project, Asleep;
    DesksSound(desks, reqs, i);
    TakenUpTo(desks, reqs, i, n);
    TimeIsTaken(desks[i]);
    assert DeskStep(desks[i], reqs[i], desks[i + 1]);
    AskedJoins(desks[i], reqs[i], desks[i + 1], id, when);
    NotWokenEarly(desks, reqs, (id, when), i + 1, n);
  }

  lemma {:induction false} TakenUpTo(desks: seq<Desk>, reqs: seq<Request>, i: nat, n: nat)
    requires IsDeskRun(desks, reqs) && Sound(desks[0]) && i <= n <= |reqs|
    ensures desks[i].world.taken <= desks[n].world.taken
  {
    hide DeskStep, Delays, Conserves, Project;
    if i < n {
      TakenUpTo(desks, reqs, i, n - 1);
      DesksSound(desks, reqs, n - 1);
      assert DeskStep(desks[n - 1], reqs[n - 1], desks[n]);
      TakenGrows(desks[n - 1], reqs[n - 1], desks[n]);
    }
  }

  /** What leaves the heap is due, and its task is made ready by the reply. */
  lemma LeavesAwake(u: Desk, req: Request, v: Desk, e: Heaps.Entry)
    requires Delays(u) && DeskStep(u, req, v) && e in u.books.pending && e !in v.books.pending
    ensures req.Reply? && req.target == e.0 && e.1 <= u.world.time
    ensures Sized(v.world.kernel) && v.world.kernel.tasks[e.0 % TASKS].state.Ready?
    ensures v.world.kernel.tasks[e.0 % TASKS].id == e.0
  {
    hide WorldStep, Delays, Cast, NoneDue, Decode, CopiedOver, IsAnswer, Turn, Asleep;
    StepIsTurn(u, req, v);
    LeftBy(u, req, v, e);
    SleepsAt(Dispatched(u), e);
    Rewoken(Dispatched(u).world, req, v.world, e.0);
  }

  lemma LeftBy(u: Desk, req: Request, v: Desk, e: Heaps.Entry)
    requires DeskStep(u, req, v) && e in u.books.pending && e !in v.books.pending
    ensures req.Reply? && req.target == e.0 && e.1 <= u.world.time
  {
    hide WorldStep, Cast, NoneDue, Decode, CopiedOver, IsAnswer;
  }

  lemma SleepsAt(d: Desk, e: Heaps.Entry)
    requires Delays(d) && e in d.books.pending
    ensures Cast(d.world) && Asleep(d.world, e.0)
  {
    hide NotifierOk, ServerOk, CourierOk, Unasked, SlotsOk, Asleep;
  }

  lemma Rewoken(w: World, req: Request, v: World, id: int)
    requires Turn(w, req, v) && Asleep(w, id) && req.Reply? && req.target == id
    ensures Sized(v.kernel) && v.kernel.tasks[id % TASKS].state.Ready? && v.kernel.tasks[id % TASKS].id == id
  {
    hide Inv, Running, Handle, After, Consistent;
    TurnKernel(w, req, v);
    ReplyOutcome(w.kernel, id % TASKS, id, req.reply);
    LivesOn(w.kernel, req);
  }

  // ---------- A desk to start from ----------

  lemma DeskStarts(u: Desk)
    requires Starts(u.world) && PoliteQueue(u.world) && |u.incoming| == LETTER_SIZE
    requires u.books == Books(multiset{}, multiset{}, [])
    ensures Sound(u)
  {
    hide Inv, Consistent, Project, Conserves, PoliteQueue;
    StartConserves(u.world);
  }

  /** From boot, a server with an empty heap, and with any number of couriers, can be reached. */
  lemma SomeDesk(memory: seq<Task>, couriers: nat) returns (u: Desk)
    requires |memory| == TASKS && couriers + 3 <= TASKS
    ensures Reachable(u.world.kernel) && Sound(u) && |u.world.couriers| == couriers
  {
    hide Reachable, Inv, Unasked, SlotsOk;
    var w := SomeStart(memory, couriers);
    u := Desk(w, seq(LETTER_SIZE, _ => '\0'), Books(multiset{}, multiset{}, []));
    DeskStarts(u);
  }

  // ---------- From the letter ----------

  lemma BytesRead(text: seq<char>, n: int)
    requires |text| >= NUMBER_SIZE && -0x8000_0000 <= n <= 0x7fff_ffff && text[4..8] == Bytes(n)
    ensures NumberIn(text) == n
  {
    hide NumberIn;
    var b := text[4..8];
    assert text[4] == b[0] && text[5] == b[1] && text[6] == b[2] && text[7] == b[3];
    var u := if n < 0 then n + 0x1_0000_0000 else n;
    ByteSum(u);
    NumberFrom(text, u % 0x100, u / 0x100 % 0x100, u / 0x1_0000 % 0x100, u / 0x100_0000);
    SignByte(u);
  }

  lemma NumberFrom(text: seq<char>, b0: int, b1: int, b2: int, b3: int)
    requires |text| >= NUMBER_SIZE && 0 <= b0 < 256 && 0 <= b1 < 256 && 0 <= b2 < 256 && 0 <= b3 < 256
    requires text[4] == b0 as char && text[5] == b1 as char && text[6] == b2 as char && text[7] == b3 as char
    ensures NumberIn(text) == b0 + 0x100 * b1 + 0x1_0000 * b2 + 0x100_0000 * if b3 < 128 then b3 else b3 - 256
  {
  }

  lemma SignByte(u: int)
    requires 0 <= u < 0x1_0000_0000
    ensures u / 0x100_0000 < 128 <==> u < 0x8000_0000
  {
  }

  lemma ByteSum(u: int)
    requires 0 <= u < 0x1_0000_0000
    ensures 0 <= u / 0x100_0000 < 0x100
    ensures u == u % 0x100 + 0x100 * (u / 0x100 % 0x100) + 0x1_0000 * (u / 0x1_0000 % 0x100)
        + 0x100_0000 * (u / 0x100_0000)
  {
    assert u / 0x1_0000 == u / 0x100 / 0x100 && u / 0x100_0000 == u / 0x1_0000 / 0x100;
  }

  /** The message types as the numbers they are. */
  lemma TypeNumbers()
    ensures TICK_TYPE == Bytes(0x0502_0010) && COURIER_TYPE == Bytes(0x0100_1000)
    ensures TIME_TYPE == Bytes(0x0102_0011) && TIME_REPLY_TYPE == Bytes(0x0302_0014)
    ensures DELAY_TYPE == Bytes(0x0302_0012) && DELAY_UNTIL_TYPE == Bytes(0x0302_0013)
    ensures WAKEUP_TYPE == Bytes(0x0302_0015) && INVALID_TYPE == Bytes(0x0100_0001)
  {
  }

  /** The server runs, and has received this text from task id. */
  ghost predicate Reads(u: Desk, req: Request, id: int, text: seq<char>) {
    && CanDispatch(u.world.kernel) && !req.Irq? && |u.incoming| == LETTER_SIZE && Cast(Dispatched(u).world)
    && var w := Dispatched(u).world;
      && w.kernel.active == w.server && w.serverCall.Listening?
      && var result := w.kernel.tasks[w.server].result;
        result.Received? && result.from == id && result.text == text && |text| <= LETTER_SIZE
  }

  lemma ReadsType(u: Desk, req: Request, id: int, text: seq<char>, kind: seq<char>)
    requires Reads(u, req, id, text) && |kind| == 4 <= |text| && text[..4] == kind
    ensures Heard(Dispatched(u)) ==
      Decode(text + u.incoming[|text|..]) && (text + u.incoming[|text|..])[..4] == kind
    ensures |text| >= NUMBER_SIZE ==> (text + u.incoming[|text|..])[4..8] == text[4..8]
    ensures Sender(Dispatched(u)) == id
  {
    hide Decode, Cast;
  }

  /** A task asks to be delayed by k ticks: it stays blocked until the ticks that the server
      had counted then, and k more, have been taken as timer interrupts. */
  lemma DelayHolds(desks: seq<Desk>, reqs: seq<Request>, id: int, text: seq<char>, k: int, i: nat, n: nat)
    requires IsDeskRun(desks, reqs) && Sound(desks[0]) && i < n <= |reqs|
    requires -0x8000_0000 <= k <= 0x7fff_ffff && Reads(desks[i], reqs[i], id, text)
    requires |text| >= 8 && text[..8] == Bytes(0x0302_0012) + Bytes(k)
    requires desks[n].world.taken < desks[i].world.time + k
    ensures Delays(desks[n]) && Asleep(desks[n].world, id)
  {
    hide DeskStep, Sound, Cast, Delays, Asleep, Decode;
    LetterAsks(desks[i], reqs[i], id, text, Bytes(0x0302_0012), k);
    WakeTimeHolds(desks, reqs, id, desks[i].world.time + k, i, n);
  }

  /** A task asks to be delayed until tick k: it stays blocked until k timer interrupts have
      been taken. */
  lemma DelayUntilHolds(desks: seq<Desk>, reqs: seq<Request>, id: int, text: seq<char>, k: int, i: nat, n: nat)
    requires IsDeskRun(desks, reqs) && Sound(desks[0]) && i < n <= |reqs|
    requires -0x8000_0000 <= k <= 0x7fff_ffff && Reads(desks[i], reqs[i], id, text)
    requires |text| >= 8 && text[..8] == Bytes(0x0302_0013) + Bytes(k)
    requires desks[n].world.taken < k
    ensures Delays(desks[n]) && Asleep(desks[n].world, id)
  {
    hide DeskStep, Sound, Cast, Delays, Asleep, Decode;
    LetterAsks(desks[i], reqs[i], id, text, Bytes(0x0302_0013), k);
    WakeTimeHolds(desks, reqs, id, k, i, n);
  }

  /** What the two requests ask for. */
  lemma LetterAsks(u: Desk, req: Request, id: int, text: seq<char>, kind: seq<char>, k: int)
    requires Reads(u, req, id, text) && -0x8000_0000 <= k <= 0x7fff_ffff
    requires |kind| == 4 && |text| >= 8 && text[..8] == kind + Bytes(k)
    ensures kind == Bytes(0x0302_0012) ==> AsksFor(u, req, id, u.world.time + k)
    ensures kind == Bytes(0x0302_0013) ==> AsksFor(u, req, id, k)
  {
    hide Cast, NumberIn, Bytes;
    TypesDiffer();
    assert text[..4] == text[..8][..4] == kind;
    assert text[4..8] == text[..8][4..] == Bytes(k);
    ReadsType(u, req, id, text, kind);
    BytesRead(text + u.incoming[|text|..], k);
  }

  lemma TypesDiffer()
    ensures DELAY_TYPE == Bytes(0x0302_0012) && DELAY_UNTIL_TYPE == Bytes(0x0302_0013)
    ensures TIME_TYPE == Bytes(0x0102_0011)
    ensures DELAY_TYPE != TICK_TYPE && DELAY_UNTIL_TYPE != TICK_TYPE && TIME_TYPE != TICK_TYPE
    ensures DELAY_TYPE != TIME_TYPE && DELAY_UNTIL_TYPE != TIME_TYPE && DELAY_UNTIL_TYPE != DELAY_TYPE
  {
    assert DELAY_TYPE[0] == '\U{12}' && DELAY_UNTIL_TYPE[0] == '\U{13}';
  }

  // ---------- Nobody is forgotten ----------

  /** In this round the server wakes the task with this id, which is then ready. */
  ghost predicate WokenIn(req: Request, v: Desk, id: int) {
    && req.Reply? && req.target == id && |req.reply| == NUMBER_SIZE && req.reply[..4] == Bytes(0x0302_0015)
    && Sized(v.world.kernel) && v.world.kernel.tasks[id % TASKS].state.Ready?
    && v.world.kernel.tasks[id % TASKS].id == id
  }

  lemma LeavesByWakeup(u: Desk, req: Request, v: Desk, e: Heaps.Entry)
    requires Delays(u) && DeskStep(u, req, v) && e in u.books.pending && e !in v.books.pending
    ensures WokenIn(req, v, e.0)
  {
    hide Delays, DeskStep;
    LeavesAwake(u, req, v, e);
    WakeupText(u, req, v, e);
  }

  lemma WakeupText(u: Desk, req: Request, v: Desk, e: Heaps.Entry)
    requires DeskStep(u, req, v) && e in u.books.pending && e !in v.books.pending
    ensures req.Reply? && |req.reply| == NUMBER_SIZE && req.reply[..4] == Bytes(0x0302_0015)
  {
    hide WorldStep, Cast, NoneDue, Decode, CopiedOver, IsAnswer, Bytes;
    TypeNumbers();
  }

  /** A request that the server has read joins the heap, or its task is woken at once. */
  lemma AskedOrWoken(u: Desk, req: Request, v: Desk, id: int, when: int)
    requires Delays(u) && DeskStep(u, req, v) && AsksFor(u, req, id, when)
    ensures (id, when) in v.books.pending || WokenIn(req, v, id)
  {
    hide WorldStep, Delays, Cast, NoneDue, Decode, CopiedOver, IsAnswer, Turn, Asleep, Bytes, Heard, IsDue;
    var d := Dispatched(u);
    assert (id, when) in d.books.pending + Asked(Sender(d), Heard(d), d.world.time);
    if (id, when) !in v.books.pending {
      StepIsTurn(u, req, v);
      AskerAsleep(d, req, v.world);
      Rewoken(d.world, req, v.world, id);
      TypeNumbers();
    }
  }

  lemma AskerAsleep(d: Desk, req: Request, v: World)
    requires Delays(d) && Turn(d.world, req, v) && d.world.kernel.active == d.world.server
    requires d.world.serverCall.Listening?
    requires Heard(d).ClockDelay? || Heard(d).ClockDelayUntil?
    ensures Asleep(d.world, Sender(d))
  {
    hide Inv, Running, Consistent, Asleep, Sleepers, PoliteQueue, Heard;
    TickIsCouriers(d);
    ServerIdle(d.world);
  }

  /** What has left the heap was woken in some round. */
  lemma {:induction false} WokenSomeTime(desks: seq<Desk>, reqs: seq<Request>, e: Heaps.Entry, i: nat, n: nat)
    returns (m: nat)
    requires IsDeskRun(desks, reqs) && Sound(desks[0]) && i <= n <= |reqs|
    requires e in desks[i].books.pending && e !in desks[n].books.pending
    ensures i <= m < n && WokenIn(reqs[m], desks[m + 1], e.0)
    decreases n
  {
    hide DeskStep, Delays, Conserves, Project, WokenIn;
    if e in desks[n - 1].books.pending {
      m := n - 1;
      DesksSound(desks, reqs, m);
      assert DeskStep(desks[m], reqs[m], desks[m + 1]);
      LeavesByWakeup(desks[m], reqs[m], desks[m + 1], e);
    } else {
      m := WokenSomeTime(desks, reqs, e, i, n - 1);
    }
  }

  /** A task that has asked for a delay of k ticks is woken before the server, having counted
      that many, receives again. */
  lemma DelayEnds(desks: seq<Desk>, reqs: seq<Request>, id: int, text: seq<char>, k: int, i: nat, n: nat)
    returns (m: nat)
    requires IsDeskRun(desks, reqs) && Sound(desks[0]) && i < n <= |reqs|
    requires -0x8000_0000 <= k <= 0x7fff_ffff && Reads(desks[i], reqs[i], id, text)
    requires |text| >= 8 && text[..8] == Bytes(0x0302_0012) + Bytes(k)
    requires desks[n].world.serverCall.Listening? && desks[n].world.time >= desks[i].world.time + k
    ensures i <= m < n && WokenIn(reqs[m], desks[m + 1], id)
  {
    hide DeskStep, Sound, Cast, Delays, Asleep, Decode, WokenIn;
    LetterAsks(desks[i], reqs[i], id, text, Bytes(0x0302_0012), k);
    m := WokenByThen(desks, reqs, id, desks[i].world.time + k, i, n);
  }

  lemma DelayUntilEnds(desks: seq<Desk>, reqs: seq<Request>, id: int, text: seq<char>, k: int, i: nat, n: nat)
    returns (m: nat)
    requires IsDeskRun(desks, reqs) && Sound(desks[0]) && i < n <= |reqs|
    requires -0x8000_0000 <= k <= 0x7fff_ffff && Reads(desks[i], reqs[i], id, text)
    requires |text| >= 8 && text[..8] == Bytes(0x0302_0013) + Bytes(k)
    requires desks[n].world.serverCall.Listening? && desks[n].world.time >= k
    ensures i <= m < n && WokenIn(reqs[m], desks[m + 1], id)
  {
    hide DeskStep, Sound, Cast, Delays, Asleep, Decode, WokenIn;
    LetterAsks(desks[i], reqs[i], id, text, Bytes(0x0302_0013), k);
    m := WokenByThen(desks, reqs, id, k, i, n);
  }

  lemma WokenByThen(desks: seq<Desk>, reqs: seq<Request>, id: int, when: int, i: nat, n: nat) returns (m: nat)
    requires IsDeskRun(desks, reqs) && Sound(desks[0]) && i < n <= |reqs| && AsksFor(desks[i], reqs[i], id, when)
    requires desks[n].world.serverCall.Listening? && desks[n].world.time >= when
    ensures i <= m < n && WokenIn(reqs[m], desks[m + 1], id)
  {
    hide DeskStep, AsksFor, Conserves, Project, WokenIn, Consistent, Sleepers, NewAsker, PoliteQueue;
    DesksSound(desks, reqs, i);
    DesksSound(desks, reqs, n);
    assert DeskStep(desks[i], reqs[i], desks[i + 1]);
    AskedOrWoken(desks[i], reqs[i], desks[i + 1], id, when);
    if WokenIn(reqs[i], desks[i + 1], id) {
      m := i;
    } else {
      m := WokenSomeTime(desks, reqs, (id, when), i + 1, n);
    }
  }

  // ---------- The other answers ----------

  /** A task that asks for the time gets the ticks that the server has counted. */
  lemma TimeAnswered(u: Desk, req: Request, v: Desk, id: int, text: seq<char>)
    requires Delays(u) && DeskStep(u, req, v) && Reads(u, req, id, text) && |text| >= 4
    requires text[..4] == Bytes(0x0102_0011) && u.world.time <= 0x7fff_ffff
    ensures req == Reply(id, Bytes(0x0302_0014) + Bytes(u.world.time))
    ensures Asleep(Dispatched(u).world, id) ==>
      Sized(v.world.kernel) && v.world.kernel.tasks[id % TASKS].state.Ready?
  {
    hide WorldStep, Delays, Cast, NoneDue, CopiedOver, Wakes, Turn, Asleep, Bytes, NumberIn;
    TypesDiffer();
    TypeNumbers();
    ReadsType(u, req, id, text, Bytes(0x0102_0011));
    StepIsTurn(u, req, v);
    if Asleep(Dispatched(u).world, id) {
      Rewoken(Dispatched(u).world, req, v.world, id);
    }
  }
}
