/** The clock server: it counts ticks, and keeps delayed tasks in a heap until their
    wake time. */
module ClockServers {
  import opened Heaps

  datatype Message =
    | ClockTick(str: seq<char>)
    | ClockTime
    | ClockDelay(ticks: int)
    | ClockDelayUntil(when: int)
    | Unexpected

  datatype Answer = TickTaken | TimeReply(time: int) | InvalidOperation | ClockWakeup

  /** Task `tid`, delayed until `when`, was woken at time `at`. */
  datatype Wakeup = Wakeup(tid: int, when: int, at: int)

  /** The number of characters before the terminator. */
  function StrLen(str: seq<char>): (n: nat)
    ensures n <= |str| && (n < |str| ==> str[n] == '\0') && '\0' !in str[..n]
  {
    if str == [] || str[0] == '\0' then 0
    else
      var n := 1 + StrLen(str[1..]);
      assert str[..n] == [str[0]] + str[1..][..n - 1];
      n
  }

  /** The wake-ups as heap entries. */
  ghost function Requests(woken: seq<Wakeup>): (s: seq<Entry>) {
    seq(|woken|, k requires 0 <= k < |woken| => (woken[k].tid, woken[k].when))
  }

  /** What a message adds to the delayed tasks. */
  ghost function Asked(tid: int, msg: Message, time: int): (s: multiset<Entry>) {
    match msg
    case ClockDelay(ticks) => multiset{(tid, ticks + time)}
    case ClockDelayUntil(when) => multiset{(tid, when)}
    case _ => multiset{}
  }

  /** A batch of wake-ups is in order of wake time, and nobody is woken early. */
  ghost predicate InTime(batch: seq<Wakeup>, time: int) {
    && (forall k :: 0 <= k < |batch| ==> batch[k].when <= batch[k].at == time)
    && (forall k, l :: 0 <= k < l < |batch| ==> batch[k].when <= batch[l].when)
  }

  lemma RequestsAppend(woken: seq<Wakeup>, w: Wakeup)
    ensures Requests(woken + [w]) == Requests(woken) + [(w.tid, w.when)]
    ensures multiset(Requests(woken + [w])) == multiset(Requests(woken)) + multiset{(w.tid, w.when)}
  {
    assert Requests(woken + [w]) == Requests(woken) + [(w.tid, w.when)];
  }

  lemma NothingWoken(time: int, pending: multiset<Entry>)
    ensures multiset(Requests([])) == multiset{} && InTime([], time) && NoneBefore([], pending)
  {
    assert Requests([]) == [];
  }

  lemma InTimeAppend(batch: seq<Wakeup>, w: Wakeup, time: int)
    requires InTime(batch, time) && w.when <= w.at == time
    requires forall k :: 0 <= k < |batch| ==> batch[k].when <= w.when
    ensures InTime(batch + [w], time)
  {
  }

  ghost predicate NoneEarly(woken: seq<Wakeup>, time: int) {
    forall w :: w in woken ==> w.when <= w.at <= time
  }

  ghost predicate NoneDue(pending: multiset<Entry>, time: int) {
    forall e :: e in pending ==> time < e.1
  }

  /** Everybody in the batch became due after `earlier`, or has only just asked. */
  ghost predicate JustDue(batch: seq<Wakeup>, earlier: int, added: multiset<Entry>) {
    forall w :: w in batch ==> earlier < w.when || (w.tid, w.when) in added
  }

  /** Nobody still pending should have been woken before one of the batch. */
  ghost predicate NoneBefore(batch: seq<Wakeup>, pending: multiset<Entry>) {
    forall k, e :: 0 <= k < |batch| && e in pending ==> batch[k].when <= e.1
  }

  /** The least of the pending requests joins the batch. */
  lemma BatchGrows(batch: seq<Wakeup>, w: Wakeup, before: multiset<Entry>, after: multiset<Entry>, time: int)
    requires InTime(batch, time) && NoneBefore(batch, before) && w.when <= w.at == time
    requires (w.tid, w.when) in before && forall e :: e in before ==> w.when <= e.1
    requires after == before - multiset{(w.tid, w.when)}
    ensures InTime(batch + [w], time) && NoneBefore(batch + [w], after)
  {
    assert forall e :: e in after ==> e in before;
    assert forall k :: 0 <= k < |batch| ==> batch[k].when <= (w.tid, w.when).1;
    InTimeAppend(batch, w, time);
  }

  /** Moving e from one part of a sum to the other. */
  lemma MoveEntry(start: multiset<Entry>, before: multiset<Entry>, after: multiset<Entry>, r: multiset<Entry>, e: Entry)
    requires start == before + r && e in before && after == before - multiset{e}
    ensures start == after + (r + multiset{e})
  {
    assert before == after + multiset{e};
  }

  class ClockServer {
    var time: int
    const taskHeap: Heap

    ghost var asked: multiset<Entry>
    ghost var woken: seq<Wakeup>

    /** Every delay asked for is pending or was served, once; nobody was woken early; and
        whenever the server is back at Receive, nobody overdue is still pending. */
    ghost predicate Valid()
      reads this, taskHeap, taskHeap.elements, taskHeap.priorities
    {
      && taskHeap.Valid()
      && asked == taskHeap.Bag() + multiset(Requests(woken))
      && NoneEarly(woken, time) && NoneDue(taskHeap.Bag(), time)
    }

    constructor (elements: array<int>, priorities: array<int>)
      requires elements != priorities && elements.Length == priorities.Length
      ensures Valid() && time == 0 && asked == multiset{} && woken == []
      ensures taskHeap.maxSize == elements.Length
    {
      time := 0;
      taskHeap := new Heap(elements, priorities);
      asked := multiset{};
      woken := [];
      new;
      assert Requests([]) == [];
    }

    /** Wakes every task whose time has come. */
    method WakeDue() returns (batch: seq<Wakeup>)
      requires taskHeap.Valid()
      modifies taskHeap, taskHeap.elements, taskHeap.priorities
      ensures taskHeap.Valid() && InTime(batch, time)
      ensures old(taskHeap.Bag()) == taskHeap.Bag() + multiset(Requests(batch))
      ensures NoneDue(taskHeap.Bag(), time)
    {
      hide Ordered, Requests, InTime, NoneBefore, Heap.Bag;
      batch := [];
      ghost var start := taskHeap.Bag();
      NothingWoken(time, start);
      while taskHeap.size > 0 && taskHeap.priorities[0] <= time
        invariant taskHeap.Valid() && InTime(batch, time)
        invariant start == taskHeap.Bag() + multiset(Requests(batch))
        invariant NoneBefore(batch, taskHeap.Bag())
        decreases taskHeap.size
      {
        ghost var before := taskHeap.Bag();
        var when := taskHeap.priorities[0];
        var tid := taskHeap.RemoveMin();
        var w := Wakeup(tid, when, time);
        MoveEntry(start, before, taskHeap.Bag(), multiset(Requests(batch)), (tid, when));
        RequestsAppend(batch, w);
        BatchGrows(batch, w, before, taskHeap.Bag(), time);
        batch := batch + [w];
      }
      taskHeap.NobodyBelowRoot();
    }

    /** Counts the characters of a tick message. */
    static method TickLength(str: seq<char>) returns (j: int)
      requires '\0' in str
      ensures j == StrLen(str)
    {
      j := 0;
      while str[j] != '\0'
        invariant 0 <= j < |str| && '\0' in str[j..]
        invariant StrLen(str) == j + StrLen(str[j..])
        decreases |str| - j
      {
        assert str[j..][1..] == str[j + 1..];
        j := j + 1;
      }
    }

    /** Acts on the type of the message, before anyone is woken. */
    method Accept(tid: int, msg: Message) returns (answers: seq<Answer>)
      requires taskHeap.Valid()
      requires msg.ClockDelay? || msg.ClockDelayUntil? ==> taskHeap.size < taskHeap.maxSize
      requires msg.ClockTick? ==> '\0' in msg.str
      modifies this`time, taskHeap, taskHeap.elements, taskHeap.priorities
      ensures taskHeap.Valid()
      ensures taskHeap.Bag() == old(taskHeap.Bag()) + Asked(tid, msg, old(time))
      ensures time == old(time) + if msg.ClockTick? then StrLen(msg.str) else 0
      ensures answers == match msg
        case ClockTick(_) => [TickTaken]
        case ClockTime => [TimeReply(old(time))]
        case Unexpected => [InvalidOperation]
        case _ => []
    {
      hide Ordered, Heap.Entries, StrLen;
      answers := [];
      match msg {
        case ClockTick(str) =>
          answers := [TickTaken];
          var j := TickLength(str);
          time := time + j;
        case ClockTime => answers := [TimeReply(time)];
        case ClockDelay(ticks) => taskHeap.Add(tid, ticks + time);
        case ClockDelayUntil(when) => taskHeap.Add(tid, when);
        case Unexpected => answers := [InvalidOperation];
      }
    }

    /** One message: the answer to the sender, if it gets one now, and the wake-ups.  A
        task is woken by the very message that makes it due. */
    method HandleMessage(tid: int, msg: Message) returns (answers: seq<Answer>, batch: seq<Wakeup>)
      requires Valid()
      requires msg.ClockDelay? || msg.ClockDelayUntil? ==> taskHeap.size < taskHeap.maxSize
      requires msg.ClockTick? ==> '\0' in msg.str
      modifies this, taskHeap, taskHeap.elements, taskHeap.priorities
      ensures Valid()
      ensures time == old(time) + if msg.ClockTick? then StrLen(msg.str) else 0
      ensures asked == old(asked) + Asked(tid, msg, old(time))
      ensures woken == old(woken) + batch && InTime(batch, time)
      ensures JustDue(batch, old(time), Asked(tid, msg, old(time)))
      ensures answers == match msg
        case ClockTick(_) => [TickTaken]
        case ClockTime => [TimeReply(old(time))]
        case Unexpected => [InvalidOperation]
        case _ => []
    {
      hide Ordered, Requests, InTime, Asked, StrLen, NoneEarly, NoneDue, JustDue, Heap.Bag, Heap.Valid;
      taskHeap.ValidSized();
      ghost var pending := taskHeap.Bag();
      ghost var added := Asked(tid, msg, time);
      ghost var earlier := time;
      answers := Accept(tid, msg);
      batch := WakeDue();
      taskHeap.ValidSized();
      WokenByThis(pending, added, taskHeap.Bag(), batch, earlier);
      Conserved(asked, pending, added, taskHeap.Bag(), woken, batch);
      BatchTimes(woken, earlier, batch, time);
      asked := asked + added;
      woken := woken + batch;
    }
  }

  lemma Conserved(asked: multiset<Entry>, pending: multiset<Entry>, added: multiset<Entry>, left: multiset<Entry>,
                  woken: seq<Wakeup>, now: seq<Wakeup>)
    requires asked == pending + multiset(Requests(woken)) && pending + added == left + multiset(Requests(now))
    ensures asked + added == left + multiset(Requests(woken + now))
  {
    hide Requests;
    RequestsConcat(woken, now);
    assert asked + added == (pending + added) + multiset(Requests(woken));
  }

  lemma BatchTimes(woken: seq<Wakeup>, earlier: int, batch: seq<Wakeup>, time: int)
    requires NoneEarly(woken, earlier) && earlier <= time && InTime(batch, time)
    ensures NoneEarly(woken + batch, time)
  {
  }

  /** Whoever is woken was not yet due before this message, or was delayed by it. */
  lemma WokenByThis(pending: multiset<Entry>, added: multiset<Entry>, left: multiset<Entry>, batch: seq<Wakeup>,
                    earlier: int)
    requires pending + added == left + multiset(Requests(batch))
    requires NoneDue(pending, earlier)
    ensures JustDue(batch, earlier, added)
  {
    forall w | w in batch
      ensures earlier < w.when || (w.tid, w.when) in added
    {
      var k :| 0 <= k < |batch| && batch[k] == w;
      assert Requests(batch)[k] == (w.tid, w.when);
      assert (w.tid, w.when) in multiset(Requests(batch));
      assert (w.tid, w.when) in pending + added;
    }
  }

  lemma RequestsConcat(a: seq<Wakeup>, b: seq<Wakeup>)
    ensures multiset(Requests(a + b)) == multiset(Requests(a)) + multiset(Requests(b))
  {
    assert Requests(a + b) == Requests(a) + Requests(b);
  }
}
