# Verification of the train-control microkernel and its servers

This project models the hardest parts of a microkernel for an ARM board and of the train
control that runs on it, and proves properties of the model with Dafny.
`dafny verify dfyconfig.toml` checks everything.

## What is modelled

**The kernel** (`KernelModel`, `KernelInvariant`, `KernelRuns`, `KernelAnswers`, `Links`, `Microkernel`).
Class `Microkernel.Globals` has the source's own data: a descriptor array whose link field
`next` is shared by 32 ready queues, one sender queue per descriptor and the free list, with
head and tail arrays, event slots and two ring buffers. Indices stand for pointers and -1 for
NULL. Every handler is a method that updates these fields in place, stale links included.
Its ghost field `model` is an abstract kernel on plain sequences (`KernelModel`). `Core()`
ties the two: each list of the abstract kernel is threaded through the links from its head to
its tail, and no two lists share a member. Every handler does to `model` exactly what the
abstract step says; `KernelInvariant` proves that every abstract step keeps the invariant,
and `KernelRuns` proves what follows over whole runs. `KernelAnswers` says what the caller of
each system call reads when it returns, in which order tasks become ready, and what each device
hands over, from the kernel before the round alone. `Start` shows that from arbitrary memory
the linked kernel performs such a run.

**Buffers, heap and clock** (`RingBuffers`, `Heaps`, `ClockServers`, `TickPath`,
`ClockTasks`, `ClockDelays`). One ring buffer class stands for the character and the integer buffer, which
have the same code. The heap keeps the comparison with the slot just past the live entries.
The clock server is a class. The way of a tick from the interrupt to the server is a transition
system, `TickPath.Pipeline`. `ClockTasks` puts the programs of notifier, couriers and server on
the kernel, together with any other tasks: `Project` reads the pipeline off the kernel and the
tasks' own variables, and every round of the kernel is a sequence of pipeline moves.
`ClockDelays` adds the server's whole program, with its message buffer and its heap, and follows
delayed tasks from the bytes of the request to the reply that wakes them.

**The route server** (`Track`, `RouteSearch`, `ShortestRoutes`, `Reservations`, `Releases`,
`Detours`, `RouteServers`, `RouteReach`, `RouteVisits`, `TrainPlaces`, `PassingLoop`). `ShortestRoutes.Search` runs the two-layer search with stale heap entries on
label arrays, and writes the route from the parent links. `RouteServers.RouteServer` holds the
three-dimensional reservation table, the train slots and the routes; its methods give, release
and clear reservations, and `Serve` is the message loop. A request computes the conflicts from
the table, searches, plans the detours at branches and gives reservations on the new route.
`RouteReach`, `RouteVisits` and `TrainPlaces` tell what a train has after a message by the
distances on its route and by the ways along the switches, without the functions that the
methods are specified with.

**Arithmetic** (`MathSqrt`, `NumberText`). The integer square root, and the number printer and
reader, with 32-bit bounds proved where they matter.

## Hypotheses

* The track is what its generator enforces (`src/track/parse_track:119-121`,
  `src/track/parse_track:224-238`): reversing is an involution, every edge has its mirror, the
  two edges of a branch lead to different nodes. Edges have positive lengths small enough that
  one edge and the cost of a reserved edge fit an int. `TwoEndsOk` gives a track that meets this.
* A kernel run stops at a Create of a legal priority for which no descriptor is left, where the
  source's assertion fails, and the clock server is asked for no more delays than its heap holds.
* In `ClockTasks` the tasks that are no part of the clock path make any calls except to send to
  the notifier, to await the clock event, and to reply to a courier (`Follows`). In `ClockDelays`
  they also do not reply to a task that waits for the server, and do not report ticks to it
  (`Discreet`).

## What turned out differently from what one might expect

* The number reader takes a digit equal to the base: "1a" reads as twenty in base ten
  (`ReadsDigitTen`). `StopsAtNonDigit`: it stops at the first character that is no digit of the
  base exactly when that character is not the digit for the base; base sixteen has none. Printing and reading back is not affected (`PrintAndRead`).
* `set_ready` clears the link of a descriptor before it asks whether it is ready already. The
  precondition of `SetReady` is that a ready descriptor is the last of its queue; every call
  in the kernel meets it, the second requeue after a reply included.
* Releasing what has been passed can take away what the route still counts on, when a detour
  comes back to the primary route. `LoseTrack` shows it from the start of the server: on a track
  with a passing loop, three messages of one train (ask for a route, report a sensor, release up
  to it) lead there. `ReleaseKeepsBacked` says exactly when nothing is lost, from the route, the
  column and the node as they were before the call: when no leg that stays counts on a segment
  that a dropped leg is on. Routes that pass nothing twice are safe (`SimpleNeverClashes`), and
  over whole runs nothing else makes a train lose track (`Serve`).
* `heap_min_priority < INT_MAX` in the search compares a function pointer, and has no effect
  here: the loop ends when the heap is empty or a goal is settled.
* `give_reservations` for a train that is off its route starts at the position that happens to
  be the number of the first node (`StartOf`); for a train without a route the source would
  read in front of the route array, and `Advance` reports this instead.

## Model

| member | source | states |
|---|---|---|
| KernelModel.TopPriority | src/kern/schedule.c:67-77 | the result is -1 or a non-empty queue, and every queue above it is empty |
| KernelInvariant.DispatchInv | src/kern/schedule.c:15-39 | when a queue is not empty the task at its head can run, and the whole invariant holds with it running |
| KernelInvariant.NewIdUnused | src/kern/tdlib.c:32-102 | the id of a new task was never issued before, indexes its descriptor, and a reused descriptor was retired to the free list |
| KernelInvariant.NextTidExact | src/kern/syscall_handlers.c:46-60 | the next id grows by one generation and keeps its index exactly unless it would wrap |
| KernelInvariant.ExitHomes | src/kern/syscall_handlers.c:46-60 | after an exit the descriptor is on the free list unless its id would wrap, and exactly the senders queued behind it are stranded |
| KernelInvariant.HandleInv | src/kern/handle_request.c:3-54 | handling any request of the running task keeps placement, saved requests, slots, ids and message order; only a create of a legal priority needs a descriptor |
| KernelRuns.BootInv | src/kern/kern_init.c:119-181 | the invariant holds once the first task is ready, whatever the memory held |
| KernelRuns.RunInv | src/kern/kernel.c:75-84 | the invariant holds between any two rounds of any run |
| KernelRuns.ExactlyOnePlace | src/kern/syscall_handlers.c:141-201 | in every reachable kernel an allocated descriptor is in exactly one place: one ready queue (of its priority), one sender queue (of the live task it named), the free list, one event slot, waiting in receive or for a reply, retired, or stranded behind a dead task; no list holds it twice |
| KernelRuns.PlaceUnique | src/kern/schedule.c:15-65 | membership in queues and slots agrees with what the descriptor says, place by place |
| KernelRuns.RequestKinds | src/kern/syscall_handlers.c:69-107 | a saved request always has the kind it is cast to; nobody queues behind a task waiting in receive; a task waits for ticks or keys only while there are none |
| KernelRuns.CreateMoves | src/kern/syscall_handlers.c:32-44 | a create makes one new live task with a fresh id, ready at its priority, child of the creator, returns its id, and leaves every other descriptor alone; a bad priority creates nothing |
| KernelRuns.SendMoves | src/kern/syscall_handlers.c:141-182 | a send changes only the sender and, if it waits in receive, the receiver, and logs one letter exactly when the target is alive |
| KernelRuns.ReceiveMoves | src/kern/syscall_handlers.c:184-201 | a receive changes only the receiver and the first queued sender, and logs one result exactly when somebody is queued |
| KernelRuns.NoIdTwice | src/kern/tdlib.c:19-102 | over any run no id is issued twice, dead ids stay dead, live ids are issued ones and index their descriptors |
| KernelRuns.HandleKeepsIds | src/kern/handle_request.c:3-54 | no request revives a dead id or forgets an issued one |
| KernelRuns.RunLogs | src/kern/syscall_handlers.c:69-103 | over any run the logs of a task that stays alive grow by exactly the letters sent to it and the results of its receives |
| KernelRuns.FirstInFirstOut | src/kern/syscall_handlers.c:141-201 | from its creation on, a live task has received the letters sent to it in send order, once each, every one with the sender's id, the text cut to the room it offered and that length; the rest are those of the senders queued behind it, in order |
| KernelRuns.OnlyReplyUnblocks | src/kern/syscall_handlers.c:105-139 | a task waiting for its reply is untouched by every round except a reply naming its id, which makes it ready with the reply cut to its buffer |
| KernelRuns.SendReceiveCommute | src/kern/syscall_handlers.c:69-103 | two ready tasks are next to run in one order or the other, one sends to the other, which receives: after two rounds of the loop the kernels are equal (but for who ran last), and the same id, bytes and length have arrived |
| KernelRuns.RoundQueues | src/kern/schedule.c:15-65 | a round takes the head of the highest non-empty ready queue and otherwise only appends to ready queues |
| KernelRuns.RunsAfterExactlyK | src/kern/schedule.c:15-77 | a ready task with k others ahead of it runs at exactly the dispatch after the k-th at its priority |
| KernelAnswers.OwnId | src/kern/syscall_handlers.c:15-17 | the task that ran reads its own id |
| KernelAnswers.ParentsId | src/kern/syscall_handlers.c:23-29 | it reads the id in its parent's descriptor, or -1 if it has no parent |
| KernelAnswers.CreatorsId | src/kern/syscall_handlers.c:23-44 | over any run: a task that asks for its parent reads the id in the descriptor of the task that created it, however many rounds ago |
| KernelAnswers.CreatedId | src/kern/syscall_handlers.c:32-44 | the creator reads the new id, which no task had before, and the new task has it, the priority asked for, and the creator as parent; outside 0 to 31 the creator reads -1 |
| KernelAnswers.CreatedWhere | src/kern/tdlib.c:39-73 | a new task takes the next unused descriptor, with its index as id, and when all were used, the first of the free list, which is where an exit puts it, with the id left there |
| KernelAnswers.ExitFrees | src/kern/syscall_handlers.c:46-60 | after an exit the id is 256 greater and the descriptor is the next to be reused, unless the sum would not fit an int; no other task changes |
| KernelAnswers.SendRefusals | src/kern/syscall_handlers.c:141-182 | a sender reads -1 for a negative id and -2 for a dead one; else it waits with its message saved |
| KernelAnswers.ReplyAnswers | src/kern/syscall_handlers.c:203-236 | a replier reads -1, -2 or -3 for a negative id, a dead one and a task that waits for no reply, and 0 otherwise |
| KernelAnswers.ReplyReaches | src/kern/syscall_handlers.c:105-139 | the task replied to has the length of the whole reply, and the reply cut to the room it offered |
| KernelAnswers.ReceiveAnswers | src/kern/syscall_handlers.c:184-201 | a receiver gets the first queued letter, cut to its room, with the id of the sender, or waits |
| KernelAnswers.AwaitAnswers | src/kern/syscall_handlers.c:238-298 | -1 for no event, -4 for one that is waited for, else what is buffered, at most 15 characters and the rest kept, or the task waits in the slot |
| KernelAnswers.PassAnswers | src/kern/handle_request.c:48-52 | an unknown call gives no result but the overwritten number, and changes no other task |
| KernelAnswers.AnsweredLast | src/kern/syscall_handlers.c:9-13 | a task that is answered goes to the back of its own ready queue |
| KernelAnswers.CreatedFirst | src/kern/syscall_handlers.c:32-44 | a new task is ready before its creator |
| KernelAnswers.RepliedFirst | src/kern/syscall_handlers.c:203-236 | the task replied to is ready before the replier |
| KernelAnswers.RefusedLast | src/kern/syscall_handlers.c:203-236 | a refused replier goes to the back of its queue and nobody else becomes ready |
| KernelAnswers.ReceiverReady | src/kern/syscall_handlers.c:184-201 | a receiver is ready again exactly if a letter was there |
| KernelAnswers.SenderReady | src/kern/syscall_handlers.c:141-182 | a send makes ready the waiting receiver, or the refused sender, or nobody |
| KernelAnswers.InterruptedFirst | src/kern/handle_request.c:6-11 | an interrupted task is ready again before whoever the devices wake |
| KernelAnswers.DeviceServes | src/kern/interrupt_handlers.c:34-232 | each device serves the task in its own slot and no other: the timer with a tick, the train line with exactly the byte received, the terminal with at most fifteen of the buffered characters, and what is left stays buffered |
| KernelAnswers.ServedInTurn | src/kern/interrupt_handlers.c:14-31 | what one more device does comes after all that the others did |
| KernelAnswers.FirstHasNone | src/kern/kern_init.c:174-181 | the first task has id 0, no parent, and is alone in the ready queues |
| Links.PushReadyLinked | src/kern/schedule.c:41-65 | appending through the links threads the extended queue, whatever the stale link of the new member was, and keeps all other lists |
| Links.LastUnlinked | src/kern/schedule.c:41-47 | clearing the link of the last member of a queue changes no list |
| Links.PopReadyLinked | src/kern/schedule.c:15-39 | taking the head threads the rest, and the recorded highest priority is again exact |
| Links.PushSenderLinked | src/kern/syscall_handlers.c:171-181 | threading a sender onto a sender queue appends to that list and keeps all others |
| Links.PopSenderLinked | src/kern/syscall_handlers.c:193-198 | taking the first sender without clearing its link threads the rest of the queue and keeps all others |
| Links.PopFreeLinked | src/kern/tdlib.c:58-63 | taking a descriptor off the free list threads the rest of it |
| Microkernel.Globals.InitializeGlobals | src/kern/kern_init.c:119-172 | from arbitrary memory, the linked kernel is the empty one |
| Microkernel.Globals.HighestNonEmptyPrior | src/kern/schedule.c:67-77 | the scan of the queue heads finds the greatest non-empty priority |
| Microkernel.Globals.SetReady | src/kern/schedule.c:41-65 | on the links, a task is appended to its ready queue, and a ready task that is last in its queue is left there |
| Microkernel.Globals.Schedule | src/kern/schedule.c:15-39 | on the links, the longest-waiting task of the highest priority is taken out and starts to run |
| Microkernel.Globals.RequeueActive | src/kern/syscall_handlers.c:9-13 | the running task goes to the back of its queue, or stays there if it is last already |
| Microkernel.Globals.IsTidInUse | src/kern/tdlib.c:19-30 | true exactly for the ids of live tasks, also while part of the array is unused |
| Microkernel.Globals.NewTask | src/kern/tdlib.c:32-102 | the descriptor comes from the unused part, else from the free list, as in the abstract kernel, and is in no list |
| Microkernel.Globals.TakeDescriptor | src/kern/tdlib.c:39-73 | which descriptor is taken, which id it has, and what is left of the array and the list |
| Microkernel.Globals.HandleCreate | src/kern/syscall_handlers.c:32-44 | followed by the requeue, the abstract create; an illegal priority gives -1 also when no descriptor is left |
| Microkernel.Globals.HandleExit | src/kern/syscall_handlers.c:46-60 | the abstract exit, with the free list pushed through the link field |
| Microkernel.Globals.ExecuteSendCopy | src/kern/syscall_handlers.c:69-103 | the abstract delivery, with the queue size counted down |
| Microkernel.Globals.EnqueueSender | src/kern/syscall_handlers.c:171-181 | the sender is threaded at the end of the queue |
| Microkernel.Globals.DequeueSender | src/kern/syscall_handlers.c:193-198 | the first sender is taken and its own link left stale |
| Microkernel.Globals.HandleSend | src/kern/syscall_handlers.c:141-182 | the abstract send with its three outcomes for the target: bad id, dead id, live task |
| Microkernel.Globals.HandleReceive | src/kern/syscall_handlers.c:184-201 | the abstract receive |
| Microkernel.Globals.HandleReply | src/kern/syscall_handlers.c:203-236 | followed by the requeue, the abstract reply; the caller has been requeued already exactly when the target is not waiting for a reply |
| Microkernel.Globals.HandleAwaitEvent | src/kern/syscall_handlers.c:238-298 | the abstract wait, served at once when the buffer holds something |
| Microkernel.Globals.HandleInterruptClock | src/kern/interrupt_handlers.c:34-61 | the abstract timer interrupt, through the ring buffer |
| Microkernel.Globals.HandleInterruptUart2 | src/kern/interrupt_handlers.c:159-232 | the abstract receive interrupt: characters beyond the buffer are lost, the waiting task gets a batch |
| Microkernel.Globals.HandleInterruptsOf | src/kern/interrupt_handlers.c:14-31 | the devices are served one by one as the abstract kernel does |
| Microkernel.Globals.HandleRequest | src/kern/handle_request.c:3-54 | every kernel step on the linked descriptors is the step of the abstract kernel, and the full invariant holds after it |
| Microkernel.Globals.RunRound | src/kern/kernel.c:75-84 | one round of the loop is one round of the abstract kernel |
| Microkernel.Globals.InitializeFirstTask | src/kern/kern_init.c:174-181 | the linked kernel with its first task is the abstract boot state |
| Microkernel.Globals.MainLoop | src/kern/kernel.c:75-84 | on any requests the loop performs an abstract run, and stops early only when no task is ready or a create of a legal priority finds no descriptor |
| Microkernel.Start | src/kern/kernel.c:70-84 | from arbitrary memory, initialisation and loop together perform a run from the boot state, and leave the linked kernel valid in a reachable state |
| RingBuffers.RingBuffer.Push | src/lib/char_buffer.c:22-35 | fails exactly when full, else appends |
| RingBuffers.RingBuffer.Pop | src/lib/int_buffer.c:30-39 | takes the oldest element |
| RingBuffers.RingBuffer.PopLast | src/lib/char_buffer.c:64-74 | takes back the newest element |
| RingBuffers.RingBuffer.Peek | src/lib/char_buffer.c:58-61 | shows the oldest element |
| RingBuffers.RingBuffer.Size | src/lib/char_buffer.c:76-85 | the length of the contents |
| RingBuffers.RingBuffer.Clear | src/lib/char_buffer.c:16-20 | the buffer is empty |
| Heaps.RootLeast | src/lib/heap.c:76-82 | in heap order the root has the least priority |
| Heaps.SiftUpStep | src/lib/heap.c:32-42 | one swap upwards moves the only disorder one level up |
| Heaps.SiftDownStep | src/lib/heap.c:44-64 | one swap downwards with a least child moves the only disorder one level down |
| Heaps.Heap.Add | src/lib/heap.c:32-42 | keeps heap order and adds exactly one pair |
| Heaps.Heap.SiftDown | src/lib/heap.c:44-64 | restores heap order although it also compares with the slot just past the live ones, because that slot still holds the priority being sifted |
| Heaps.Heap.RemoveMin | src/lib/heap.c:44-64 | returns an element of least priority, keeps heap order, removes exactly that pair, and returns 0 from an empty heap |
| Heaps.Heap.MinPriority | src/lib/heap.c:76-82 | the least priority, or -1 for an empty heap |
| ClockServers.StrLen | src/tasks/system_clock.c:77-85 | the position of the first terminator |
| ClockServers.WokenByThis | src/tasks/system_clock.c:65-110 | whoever is woken became due with this message or asked with it |
| ClockServers.ClockServer.WakeDue | src/tasks/system_clock.c:106-109 | wakes pending tasks in order of wake time, none early, none twice, until nobody overdue is left |
| ClockServers.ClockServer.Accept | src/tasks/system_clock.c:75-105 | a tick message adds its length to the time, a delay adds one request, a query is answered with the time |
| ClockServers.ClockServer.HandleMessage | src/tasks/system_clock.c:65-110 | every delay asked for is pending or was served, once; nobody was woken early; nobody overdue is pending when the server is back at receive |
| TickPath.NextConserves | src/tasks/system_clock.c:4-19 | no move of interrupt, notifier, courier or server loses a tick, except an interrupt that finds the buffer full |
| TickPath.LeadsConserves | src/tasks/system_courier.c:20-26 | over any moves in any interleaving, interrupts taken = ticks in the kernel, with the notifier, with couriers, counted, and lost to a full buffer |
| TickPath.WrittenLength | src/kern/interrupt_handlers.c:45-52 | what is written over an old message reads back with the length of the new data |
| ClockTasks.TimerMoves | src/kern/interrupt_handlers.c:34-61 | the kernel's timer step, seen through the projection, is exactly the pipeline's interrupt move |
| ClockTasks.NotifierAwaits | src/kern/syscall_handlers.c:279-298 | the notifier's await call is exactly the pipeline's await move |
| ClockTasks.NotifierReceives | src/tasks/system_clock.c:11-14 | the notifier's receive of no bytes takes a courier, if one is queued, and moves no tick |
| ClockTasks.NotifierReplies | src/tasks/system_clock.c:16-17 | the notifier's reply of its 20-byte message reaches exactly the courier it received from, whole, and is the pipeline's hand-over |
| ClockTasks.CourierFetches | src/tasks/system_courier.c:22-23 | the courier's send to the notifier, with its 16384-byte buffer, moves no tick |
| ClockTasks.CourierCarries | src/tasks/system_courier.c:24-25 | the courier's send of what it got to the server moves no tick; a server that waits has received it whole |
| ClockTasks.ServerCounts | src/tasks/system_clock.c:77-85 | the server's answer to a courier and its counting of the characters are the pipeline's delivery |
| ClockTasks.StrangerSteps | src/kern/handle_request.c:3-54 | any other task's call leaves the pipeline as it is |
| ClockTasks.RoundMoves | src/kern/kernel.c:75-84 | every round of the kernel with the clock tasks on it, whichever task runs and whatever devices interrupt, keeps their states consistent and takes the projected pipeline along the round's moves |
| ClockTasks.ClockConserves | src/tasks/system_clock.c:4-112 | over any run of the kernel, every timer interrupt is in the kernel's buffer, with the notifier, with a courier, counted by the clock server, or was lost to a full buffer |
| ClockTasks.StartConserves | src/tasks/system_clock.c:46-62 | with the tasks just made, the states are consistent and nothing is missing |
| ClockTasks.SomeStart | src/kern/kern_init.c:174-181 | such a start can be reached from boot, with any number of couriers that fits |
| ClockDelays.TickIsCouriers | src/tasks/system_clock.c:75-85 | the message type, read in the server's buffer, tells the couriers' ticks from all other messages |
| ClockDelays.OtherTurn | src/kern/handle_request.c:3-54 | no turn of another task wakes a delayed task, and the server then has received only letters whose senders sleep and are not delayed yet |
| ClockDelays.ServerTurnKeeps | src/tasks/system_clock.c:65-110 | every call of the server keeps its clients asleep but the one that it answers, and it listens only when nobody is due |
| ClockDelays.BooksBalance | src/tasks/system_clock.c:91-109 | on the kernel, too, every delay asked for is pending or was served, once, and nobody was woken early |
| ClockDelays.DesksSound | src/tasks/system_clock.c:21-112 | over any run of the kernel with the whole server program, all of this holds in every round |
| ClockDelays.LeavesAwake | src/tasks/system_clock.c:106-109 | a request leaves the heap only when its time has come, and its task is ready after that round |
| ClockDelays.NotWokenEarly | src/tasks/system_clock.c:106-109 | over any run, a delayed task stays blocked while fewer timer interrupts have been taken than its wake time says |
| ClockDelays.DelayHolds | src/tasks/system_clock.c:91-95 | a letter of the delay type that carries the number k, as its first eight bytes: from the round in which the server reads it on, its sender stays blocked until the ticks counted then, and k more, have been taken as timer interrupts |
| ClockDelays.DelayUntilHolds | src/tasks/system_clock.c:96-100 | the same for the delay-until type, until k timer interrupts have been taken |
| ClockDelays.DelayEnds | src/tasks/system_clock.c:106-109 | such a sender has been woken by the time the server receives again with that many ticks counted |
| ClockDelays.DelayUntilEnds | src/tasks/system_clock.c:106-109 | the same for the delay-until type |
| ClockDelays.TimeAnswered | src/tasks/system_clock.c:86-90 | a letter of the time type is answered with the reply type and the four bytes of the ticks counted |
| ClockDelays.BytesRead | include/tasks/message.h:79-84 | an int written least significant byte first, in two's complement, is the number that the server reads |
| ClockDelays.TypeNumbers | include/tasks/message.h:10-21 | the message types, composed of structure, target and number, as bytes |
| ClockDelays.WakeTimeHolds | src/tasks/system_clock.c:106-109 | from the round in which the server reads a request for a wake time on, the task stays blocked until that many timer interrupts have been taken |
| ClockDelays.SomeDesk | src/tasks/system_clock.c:21-62 | a sound start with an empty heap can be reached from boot |
| Track.MirrorInvolution | src/track/parse_track:119-121 | the mirror of the mirror of an edge is the edge |
| RouteSearch.PathCost | src/lib/route_server_lib.c:291-299 | the 32-bit sum with its overflow test saturates at the greatest int |
| RouteSearch.Settle | src/lib/route_server_lib.c:266-288 | a least entry that is not stale settles its state, at no less than any settled cost |
| RouteSearch.DropStale | src/lib/route_server_lib.c:272-275 | a stale entry may be dropped |
| RouteSearch.RelaxInv | src/lib/route_server_lib.c:291-308 | a relaxation keeps the search invariant and touches no settled label |
| RouteSearch.NoCheaperWalk | src/lib/route_server_lib.c:266-383 | when the search is over, what it found costs no more than any walk from any labelled node to either goal, forward or with reversals; a reversal onto a branch counts where no other edge is reversible onto that branch |
| RouteSearch.ParentEarlier | src/lib/route_server_lib.c:422-435 | a parent was settled before its child, so that the walk back ends |
| RouteSearch.PathIsRoute | src/lib/route_server_lib.c:410-457 | the route read off the parents follows real edges, has exact distances, never reverses twice in a row, retraces the edge after a reversal, and costs what its end is labelled with |
| ShortestRoutes.Search.Initialize | src/lib/route_server_lib.c:239-264 | the labels and the heap start out as the invariant asks |
| ShortestRoutes.Search.Relax | src/lib/route_server_lib.c:300-308 | a cheaper way replaces the label and queues the state; settled labels stay |
| ShortestRoutes.Search.RelaxEdge | src/lib/route_server_lib.c:291-328 | an edge is relaxed, and the reversal on it when the state was reached normally: afterwards neither the node at its end nor the one faced after reversing costs more than by this edge |
| ShortestRoutes.Search.Expand | src/lib/route_server_lib.c:288-371 | all moves out of the settled state are relaxed; after a reversal at a branch only the one back |
| ShortestRoutes.Search.TakeNearest | src/lib/route_server_lib.c:266-275 | the least entry settles a new state, or is stale and dropped |
| ShortestRoutes.Search.Explore | src/lib/route_server_lib.c:266-383 | the loop ends, by unsettled states and heap size, with a goal settled or nothing left |
| ShortestRoutes.Search.WalkBack | src/lib/route_server_lib.c:415-439 | following parents from a labelled state always ends at the start |
| ShortestRoutes.Search.Reconstruct | src/lib/route_server_lib.c:410-457 | the written route is a real one to the end state, and costs exactly its label |
| ShortestRoutes.ShortestRoute | src/lib/route_server_lib.c:207-499 | the result is at most the cost of any walk to either goal, with reversals on reversible edges (`IsWalk`); the route written leads to the goal it says and costs no more than the result; without a result nothing is written |
| Reservations.SharesSymmetric | src/lib/route_server_lib.c:505-535 | being the same piece of track is symmetric on a well-formed track |
| Reservations.MirrorOf | src/lib/route_server_lib.c:512-521 | the edge that the source finds is the mirror, and the only other segment on the same piece of track |
| Reservations.StaysExclusive | src/lib/route_server_lib.c:595-602 | adding only free segments to a train's column, and releasing any, keeps all trains apart |
| Reservations.GivenStep | src/lib/route_server_lib.c:609-620 | one raised leg keeps what is said about giving |
| Reservations.GivenBacked | src/lib/route_server_lib.c:609-620 | after giving, the train holds what its route counts on, and took only what was free |
| Reservations.DetourStaysGiven | src/lib/route_server_lib.c:623-649 | giving more later undoes no detour |
| Reservations.AdvancedSatisfied | src/lib/route_server_lib.c:653-681 | after giving, the train has its way as far as it wants, or up to a reversal or another train |
| Reservations.StaysSatisfied | src/tasks/user_route_server.c:216-221 | what other trains are given later does not change that |
| RouteReach.WantedIsGiven | src/lib/route_server_lib.c:653-681 | on a route with exact distances, exactly those legs are raised that begin less than the wished length ahead of the train and that it can reach without a reversal and with nobody in the way, and their segments are held |
| RouteReach.DetourFollows | src/lib/route_server_lib.c:668-673 | the detour at such a leg counts on its segments for as far as the train wants to go that way |
| RouteReach.DetourIsGiven | src/lib/route_server_lib.c:623-649 | told for the detour alone: what begins nearer than the distance counts, if no exit and nobody is in the way |
| RouteReach.PlannedMeasured | src/lib/route_server_lib.c:441-457 | a planned route carries exact distances and passes no exit |
| Releases.ReleaseKeepsBacked | src/lib/route_server_lib.c:706-728 | a train that held what its route counts on still does after the release exactly when, before it, no leg to be kept counts on the segment of a leg to be dropped |
| Releases.GivenWasDropped | src/lib/route_server_lib.c:684-728 | every segment given up is that of a leg whose reserved length is set to zero |
| Releases.DroppedIsGiven | src/lib/route_server_lib.c:684-728 | and the segment of every such leg is given up |
| Releases.SimpleNeverClashes | src/lib/route_server_lib.c:706-728 | on a route that passes nothing twice, no leg to be kept shares a segment with one to be dropped |
| Releases.PassedIsReleased | src/lib/route_server_lib.c:706-728 | the legs before the node count on nothing and their segments are not held; the others are as before |
| Releases.PassedDetour | src/lib/route_server_lib.c:684-703 | the detour of a counted leg that was passed counts on nothing; one of no leg that was passed is as before |
| Releases.AheadIsKept | src/lib/route_server_lib.c:684-728 | a segment on no leg that was passed and no detour from one is kept |
| PassingLoop.LoseTrack | src/tasks/user_route_server.c:39-221 | on a track with a passing loop, from the start of the server, a route request, a reservation request and a release leave a train whose route counts on track it does not hold, in a valid state with nothing freed by hand |
| PassingLoop.OnlyStraightOn | src/lib/route_server_lib.c:207-499 | on that track, the way straight on is the only route to the goal that costs at most 300, which is what it costs |
| PassingLoop.TurnsBack | src/lib/route_server_lib.c:309-328 | on that track the goal cannot be reached forward from node 9, but by one reversal, for 400 and the edge after it, and 18000 more if another train is in the way |
| PassingLoop.CurveCosts | src/lib/route_server_lib.c:329-350 | by the curve the goal costs 400, and 18000 more if another train is on the curve |
| PassingLoop.ReleaseLoses | src/lib/route_server_lib.c:684-728 | the detour of that route shares the segment behind the merge with it, and the release takes it away |
| Reservations.FirstAt | src/lib/route.c:130-140 | the first leg at a node, or the length |
| Reservations.ExpectedEdge | src/lib/route.c:260-271 | an edge that exists, the curved one exactly at a branch whose switch reads curved |
| Reservations.Under | src/lib/route_server_lib.c:860-886 | the segments under a train are segments of the track |
| Reservations.TakingMore | src/lib/route_server_lib.c:595-602 | trying one more segment adds it exactly if it is free |
| Detours.AddSecondaryRoute | src/lib/route_server_lib.c:112-185 | a detour starts by the other edge, follows the switches with exact distances, is no longer than it has to be, and no shorter unless it is full or comes to an exit or an unknown switch |
| Detours.DetourLengths | src/lib/route_server_lib.c:463-489 | how long the detour at each branch has to be: up to where the train will stop, at most 600 |
| Detours.WantedLength | src/lib/route_server_lib.c:463-489 | the wanted length reaches from the branch to the end of the first edge behind it that starts at a branch and is reversed on, else to the end of the route, and is at most 600 |
| Detours.FirstSensorAt | src/lib/route_server_lib.c:145-160 | the length of a detour is counted from its first sensor behind the start |
| Detours.DetourGoes | src/lib/route_server_lib.c:112-185 | step by step on the track: a detour leaves by the other edge, follows each switch, adds up each length, and stops with fewer than ten legs only before an exit or unknown switch or when it is far enough past the sensor |
| Detours.PlanRoute | src/lib/route_server_lib.c:441-496 | the route with nothing reserved and a detour of its own at each branch that needs one |
| Detours.PlannedSound | src/lib/route_server_lib.c:441-457 | a new route is on the track and counts on nothing |
| RouteServers.RouteServer.constructor | src/lib/route_server_lib.c:33-56 | the server starts with no trains, no routes and an empty table |
| RouteServers.RouteServer.GetTrainIndex | src/lib/route_server_lib.c:66-91 | a number gets the slot it has, else the first free one; a positive number never has two slots; it fails exactly when all slots belong to others |
| RouteServers.RouteServer.CanReserve | src/lib/route_server_lib.c:505-535 | true exactly when no other train holds the segment or its mirror |
| RouteServers.RouteServer.ReserveConflict | src/lib/route_server_lib.c:537-593 | true exactly when another train holds the segment or, at a branch, the other edge, in either direction |
| RouteServers.RouteServer.Reserve | src/lib/route_server_lib.c:595-602 | takes exactly the segment, exactly if it is free |
| RouteServers.RouteServer.FreeReservationByHand | src/lib/route_server_lib.c:604-607 | takes exactly the segment away; the route stays backed exactly if no leg counts on it |
| RouteServers.RouteServer.ReserveForNode | src/lib/route_server_lib.c:609-620 | succeeds exactly if the leg is long enough already or its segment is free, and raises only then |
| RouteServers.RouteServer.GiveSecondaryReservations | src/lib/route_server_lib.c:623-649 | the detour is given as far as the distance goes, unless an exit or another train is in the way, and nothing else of the route changes |
| RouteServers.RouteServer.GiveReservations | src/lib/route_server_lib.c:653-681 | exactly the legs from the train's own, or off the route from the leg whose position is the number of the first node (`StartOf`), to the first that is not wanted, lies past a reversal or is held by another are reserved in full; their detours are given as far as the distance goes and no further; only free segments on the route are taken; no other train's column changes |
| RouteServers.RouteServer.ReleaseSecondaryReservations | src/lib/route_server_lib.c:684-703 | the detour counts on nothing any more, and exactly what it counted on is given up |
| RouteServers.RouteServer.ReleaseReservations | src/lib/route_server_lib.c:706-728 | the new route and column are exactly determined: everything off the route goes, and of the primary route up to the node the legs that count on their segment or still hold it, with all that their detours count on |
| RouteServers.RouteServer.ClearAllReservations | src/lib/route_server_lib.c:785-799 | the train holds nothing and its route counts on nothing |
| RouteServers.RouteServer.ClearExtraReservations | src/lib/route_server_lib.c:812-836 | exactly the segments on the route are kept |
| RouteServers.RouteServer.ReservePosition | src/lib/route_server_lib.c:860-886 | takes exactly what is free of the track on both sides of a position, one train length each way |
| RouteServers.RouteServer.ReservePositionSensor | src/lib/route_server_lib.c:889-922 | the same for a sensor, with both edges of the branches behind it |
| TrainPlaces.AtSensor | src/lib/route_server_lib.c:889-922 | after the message a train holds every segment that begins less than 200 from the sensor on the way along the switches, and on the way from its reverse node, there with both edges of each branch, except where another train holds that piece of track; and it holds nothing else |
| TrainPlaces.SensorHandled | src/tasks/user_route_server.c:165-179 | so it is still when the message is done and all trains have been given what they wish |
| TrainPlaces.AtPosition | src/lib/route_server_lib.c:860-886 | the same for a position: ahead of it on the expected edge, and back on the mirror of that edge |
| TrainPlaces.PositionHandled | src/tasks/user_route_server.c:180-197 | so it is still when the message is done |
| TrainPlaces.AtExit | src/lib/route_server_lib.c:860-886 | at an exit, only the way back |
| RouteServers.ReversePosition | src/lib/route.c:328-355 | off an exit, the same place on the mirror of the expected edge: the two offsets add up to its length |
| RouteServers.RouteServer.NewRoute | src/lib/route_server_lib.c:93-104 | searches with the conflicts that the table shows and installs a planned route that costs no more than any walk, with reversals or without, or leaves the old one |
| RouteServers.RouteServer.GiveToAll | src/tasks/user_route_server.c:216-221 | afterwards every train that wants to go on has its way as far as it can be given, and nothing has happened to the others |
| RouteServers.RouteServer.HandleFor | src/tasks/user_route_server.c:51-206 | what each message does to the train it names: its route, its column, its wishes and place; no other train changes |
| RouteServers.RouteServer.Handle | src/tasks/user_route_server.c:51-221 | a message first has its effect on the train it names, then every train is given what it can have; nothing is taken from any other train, and only releasing, clearing and debugging messages take anything at all |
| RouteServers.RouteServer.Serve | src/tasks/user_route_server.c:39-223 | over any messages, each handled from the state that the one before it left, no two trains ever hold the same piece of track in either direction; without reservations freed by hand a train holds all that its route counts on unless a release of its own clashed, and always on a route that passes nothing twice |
| RouteServers.RouteServer.Attend | src/tasks/user_route_server.c:39-221 | what one message does, from one state of the whole server to the next; only a clashing release makes a train lack what its route counts on |
| RouteServers.Run | src/tasks/user_route_server.c:3-224 | the same from the start of the server |
| RouteServers.VisitTells | src/tasks/user_route_server.c:51-206 | which train a message is about, 9000 for debugging, and what it makes of its wish and its place |
| RouteVisits.RoutesTravel | src/tasks/user_route_server.c:39-223 | over any messages, every route that the server keeps has exact distances and passes no exit |
| RouteVisits.RouteIsFound | src/tasks/user_route_server.c:51-118 | if there is a way for a train that asks, its new route leads from where it is to the goal on either side, and costs no more than that way, at 400 for a reversal and 18000 for a step where another train is |
| RouteVisits.RequestGives | src/tasks/user_route_server.c:124-145 | a train that asks to go on is given exactly the legs that begin less than it asks for ahead of the position it tells, and that it can get to |
| RouteVisits.WishersHave | src/tasks/user_route_server.c:213-221 | after any message every train that wants to go on has each leg that begins within its wish, unless it has to reverse first or another train is in its way |
| RouteVisits.ReleaseDrops | src/tasks/user_route_server.c:147-164 | a train that reports a sensor holds only track on its route, and none that it passed before the sensor; the legs ahead are as before, and it keeps all that it had on its route but for what it passed and the detours from there |
| RouteVisits.ByHand | src/tasks/user_route_server.c:192-206 | debugging takes a segment for train 9000 unless another train holds it or its mirror, or takes one away from it; a request for a route from or to nowhere changes nothing |
| MathSqrt.NeighbourNearest | src/lib/math.c:53-62 | of two neighbours whose squares enclose the input the nearer one is nearest of all roots |
| MathSqrt.Sqrt | src/lib/math.c:6-63 | for every non-negative int the result is a root of at most 46340 whose square is nearest, and no product overflows |
| NumberText.A2d | src/lib/atomic_print.c:149-154 | the distance from '0', and ten more than that from 'a' or 'A' up to f; -1 for every other character |
| NumberText.DigitChar | src/lib/atomic_print.c:167 | the character at that distance from '0', or from 'a' from ten on |
| NumberText.DigitValues | src/lib/atomic_print.c:149-154 | in the row "0123456789abcdef" each character reads as its place, and each digit is written as it |
| NumberText.LeadingWeight | src/lib/atomic_print.c:161 | the weight of the first digit, found without overflow, and at most ten decimal or eight hexadecimal places |
| NumberText.WriteDigit | src/lib/atomic_print.c:162-170 | one turn of the loop keeps digits written and rest together equal to the number, without a leading zero |
| NumberText.Ui2a | src/lib/atomic_print.c:156-172 | writes the text of the number and a terminator, within its bounds |
| NumberText.I2a | src/lib/atomic_print.c:174-180 | every 32-bit int with its sign fits the 12-byte buffer |
| NumberText.TextUnique | src/lib/atomic_print.c:156-172 | a number has only one text in a base |
| NumberText.SampleTexts | src/lib/atomic_print.c:156-172 | 34 is written "34" in base ten, and 203 "cb" in base sixteen |
| NumberText.A2i | src/lib/atomic_print.c:135-147 | the value of the characters it accepts, modulo 2^32 as an int; these are exactly those up to the first that is no digit up to the base |
| NumberText.StopsAtNonDigit | src/lib/atomic_print.c:135-147 | the reading ends at the first character that is no digit of the base exactly when that character is not the digit for the base; in base sixteen always |
| NumberText.ReadsDigitTen | src/lib/atomic_print.c:141 | in base ten the text "1a", with its terminator, reads as twenty |
| NumberText.PrintAndRead | src/lib/atomic_print.c:135-172 | printing any unsigned 32-bit number in base 10 or 16 and reading the text gives back the int with the same bits, which for a non-negative int is the number itself |

## Left out

- Microkernel.Globals.HandleReply: after an error the source requeues and clears the running task, and `handle_request` requeues through the cleared pointer; the model requeues once.
- Microkernel.Globals.HandleCreate: for a legal priority needs a descriptor that is unused or on the free list, since the source's assertion does not stop it from using NULL; stack, registers and entry point of the new task are not modelled.
- Microkernel.Globals.HandleRequest: the call that hands out the kernel's address and the quit call are not modelled.
- Microkernel.Globals.HandleInterruptsOf: the status registers become the sequence of devices that ask; device registers, modem status and error interrupts are not modelled.
- Microkernel.Globals.ExecuteSendCopy: buffers are sequences, so that addresses, overlap and copies beyond the end of a buffer are not modelled.
- Microkernel.Globals.IsTidInUse: is called for non-negative ids only, as its callers do after their own test.
- KernelModel.ExitTask: empties the sender queue of the dead task in the abstract kernel, where the source leaves it behind unreachable; its senders count as stranded.
- RingBuffers.RingBuffer.Pop: taking from an empty buffer is excluded, as the source's comment asks of its callers; pushing a string is repeated pushing.
- Heaps.Heap.Add: a full heap is excluded, where the source's assertion does not stop it.
- ClockServers.ClockServer.HandleMessage: the time is an unbounded integer; creation of the couriers and registration at start-up are left out.
- ClockTasks.ClockConserves: the start-up exchange of couriers and server comes before the run; the server's replies to others than couriers are arbitrary here, and those of its program in `ClockDelays`.
- ClockDelays.DesksSound: the heap is a multiset of which the server takes a least element, as `Heaps.Heap.RemoveMin` does; it holds any number of delays, and wake times are unbounded integers.
- ClockTasks.SomeStart: the first task makes the others at lower priorities than the source's, so that all are ready at once; the run theorem holds for any priorities.
- ShortestRoutes.ShortestRoute: the heap has room for the search graph (the source's element array is half as long as it declares), and arrays and distances have no 8- or 16-bit limits; a walk that reverses onto a branch onto which trains may reverse from both sides is not compared with, since the state there keeps only its cheapest parent and goes on only towards it.
- ShortestRoutes.ShortestRoute: where the goal nodes are and on which edges the train may reverse are inputs.
- RouteServers.RouteServer.GiveReservations: a train without a route that wants to go on is excluded; the notifications to trains are not modelled.
- RouteServers.RouteServer.GetTrainIndex: when all slots are taken the source goes on with slot -1; `Handle` stops there. The two counters of trains are one, as they always agree.
- RouteServers.RouteServer.Handle: messages name nodes of the track where the source uses them as indices unchecked; replies to trains, the reservation display, train tids and lengths are left out.
- NumberText.A2i: a sum that exceeds an int wraps around in two's complement, where C leaves it undefined.
- The name server, serial servers, user interface, game and command line repeat the buffer and lookup patterns in easier form.
- Train motion and sensor attribution are floating-point physics and message plumbing; the sensor prediction and guaranteed-length heuristics satisfy no clean bound.
