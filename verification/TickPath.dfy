/** The way of a clock tick: from the timer interrupt through the kernel's buffer, the
    notifier and a courier to the clock server. */
module TickPath {
  import opened KernelModel
  import ClockServers

  const MESSAGE_LENGTH := 16
  const TICK := 'A'

  /** The notifier is about to await the next tick, waits in the kernel's clock slot, or
      holds ticks in its message buffer `str` until a courier comes. */
  datatype Notifier = AboutToAwait(str: seq<char>) | InSlot(str: seq<char>) | Holding(str: seq<char>)

  datatype Courier = AtNotifier | Carrying(str: seq<char>)

  datatype Pipeline = Pipeline(
    buffer: seq<char>,
    notifier: Notifier,
    couriers: seq<Courier>,
    time: nat,
    taken: nat,
    lost: nat)

  datatype Move = TimerInterrupt | AwaitEvent | HandOver(c: nat) | Deliver(c: nat)

  /** What the kernel writes into an event buffer: the data and a terminator. */
  function Written(str: seq<char>, data: seq<char>): (r: seq<char>)
    requires |data| < |str|
  {
    data + ['\0'] + str[|data| + 1..]
  }

  ghost predicate Enabled(p: Pipeline, m: Move) {
    match m
    case TimerInterrupt => true
    case AwaitEvent => p.notifier.AboutToAwait?
    case HandOver(c) => p.notifier.Holding? && c < |p.couriers| && p.couriers[c].AtNotifier?
    case Deliver(c) => c < |p.couriers| && p.couriers[c].Carrying?
  }

  ghost predicate Messages(p: Pipeline) {
    && |p.notifier.str| == MESSAGE_LENGTH
    && (p.notifier.Holding? ==> '\0' in p.notifier.str)
    && forall c :: 0 <= c < |p.couriers| && p.couriers[c].Carrying? ==> '\0' in p.couriers[c].str
  }

  /** One move of the interrupt handler, the notifier, a courier, or the server. */
  ghost function Next(p: Pipeline, m: Move): (q: Pipeline)
    requires Messages(p) && Enabled(p, m)
  {
    match m
    case TimerInterrupt =>
      var buffer := Push(p.buffer, [TICK]);
      var p1 := p.(taken := p.taken + 1, lost := p.lost + if |p.buffer| < BUFFER_SIZE then 0 else 1);
      if p.notifier.InSlot? then
        p1.(buffer := Rest(buffer), notifier := Holding(Written(p.notifier.str, Batch(buffer))))
      else p1.(buffer := buffer)
    case AwaitEvent =>
      if p.buffer != [] then
        p.(buffer := Rest(p.buffer), notifier := Holding(Written(p.notifier.str, Batch(p.buffer))))
      else p.(notifier := InSlot(p.notifier.str))
    case HandOver(c) =>
      p.(couriers := p.couriers[c := Carrying(p.notifier.str)], notifier := AboutToAwait(p.notifier.str))
    case Deliver(c) =>
      p.(couriers := p.couriers[c := AtNotifier], time := p.time + ClockServers.StrLen(p.couriers[c].str))
  }

  ghost function Carried(couriers: seq<Courier>): (n: nat) {
    if couriers == [] then 0
    else
      (match couriers[0] case AtNotifier => 0 case Carrying(str) => ClockServers.StrLen(str)) + Carried(couriers[1..])
  }

  ghost function Held(n: Notifier): (k: nat) {
    match n
    case Holding(str) => ClockServers.StrLen(str)
    case _ => 0
  }

  /** Every interrupt taken is in the kernel's buffer, with the notifier, with a courier,
      counted by the server, or was lost to a full buffer. */
  ghost predicate Conserves(p: Pipeline) {
    && Messages(p)
    && (forall k :: 0 <= k < |p.buffer| ==> p.buffer[k] == TICK)
    && |p.buffer| <= BUFFER_SIZE
    && (p.notifier.InSlot? ==> p.buffer == [])
    && p.taken == |p.buffer| + Held(p.notifier) + Carried(p.couriers) + p.time + p.lost
  }

  lemma {:induction false} WrittenLength(str: seq<char>, data: seq<char>)
    requires |data| < |str| && forall k :: 0 <= k < |data| ==> data[k] == TICK
    ensures ClockServers.StrLen(Written(str, data)) == |data|
    ensures '\0' in Written(str, data) && |Written(str, data)| == |str|
    decreases |data|
  {
    var w := Written(str, data);
    assert w[|data|] == '\0';
    if data != [] {
      assert w[1..] == Written(str[1..], data[1..]);
      WrittenLength(str[1..], data[1..]);
    }
  }

  lemma {:induction false} CarriedUpdate(couriers: seq<Courier>, c: nat, k: Courier)
    requires c < |couriers|
    ensures Carried(couriers[c := k]) + Carried([couriers[c]]) == Carried(couriers) + Carried([k])
  {
    var updated := couriers[c := k];
    if c > 0 {
      assert updated[1..] == couriers[1..][c - 1 := k];
      CarriedUpdate(couriers[1..], c - 1, k);
    } else {
      assert updated[1..] == couriers[1..];
    }
  }

  lemma CarriedOne(k: Courier)
    ensures Carried([k]) == match k case AtNotifier => 0 case Carrying(str) => ClockServers.StrLen(str)
  {
  }

  /** No move loses a tick, except the interrupt that finds the buffer full. */
  lemma NextConserves(p: Pipeline, m: Move)
    requires Conserves(p) && Enabled(p, m)
    ensures Conserves(Next(p, m))
    ensures Next(p, m).lost == p.lost + if m.TimerInterrupt? && |p.buffer| == BUFFER_SIZE then 1 else 0
    ensures m.TimerInterrupt? && p.notifier.InSlot? ==> Next(p, m).lost == p.lost
  {
    hide Carried, Written, ClockServers.StrLen;
    match m {
      case TimerInterrupt =>
        if p.notifier.InSlot? {
          WrittenLength(p.notifier.str, Batch(Push(p.buffer, [TICK])));
        }
      case AwaitEvent =>
        if p.buffer != [] {
          WrittenLength(p.notifier.str, Batch(p.buffer));
        }
      case HandOver(c) =>
        CarriedUpdate(p.couriers, c, Carrying(p.notifier.str));
        CarriedOne(p.couriers[c]);
        CarriedOne(Carrying(p.notifier.str));
      case Deliver(c) =>
        CarriedUpdate(p.couriers, c, AtNotifier);
        CarriedOne(p.couriers[c]);
        CarriedOne(AtNotifier);
    }
  }

  /** The pipeline goes from p to q by these moves, in any interleaving. */
  ghost predicate Leads(p: Pipeline, moves: seq<Move>, q: Pipeline)
    decreases |moves|
  {
    if moves == [] then q == p
    else Messages(p) && Enabled(p, moves[0]) && Leads(Next(p, moves[0]), moves[1..], q)
  }

  /** Whatever the moves, no tick goes missing. */
  lemma {:induction false} LeadsConserves(p: Pipeline, moves: seq<Move>, q: Pipeline)
    requires Conserves(p) && Leads(p, moves, q)
    ensures Conserves(q)
    decreases |moves|
  {
    if moves != [] {
      NextConserves(p, moves[0]);
      LeadsConserves(Next(p, moves[0]), moves[1..], q);
    }
  }
}
