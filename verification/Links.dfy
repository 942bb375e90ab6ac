/** Queues threaded through one array of next links, which all of them share. */
module Links {
  import opened KernelModel
  import opened KernelInvariant

  /** The link fields of all descriptors, and the queue heads and tails. */
  datatype Threads = Threads(
    next: seq<int>,
    first: seq<int>,
    last: seq<int>,
    front: seq<int>,
    end: seq<int>,
    free: int,
    highest: int)

  function LastOf(q: seq<int>): (t: int) {
    if q == [] then NULL else q[|q| - 1]
  }

  /** Following next from head visits q, in order, and then stops. */
  ghost predicate Chain(next: seq<int>, head: int, q: seq<int>) {
    && head == (if q == [] then NULL else q[0])
    && (forall j {:trigger q[j]} :: 0 <= j < |q| ==>
          0 <= q[j] < |next| && next[q[j]] == if j + 1 < |q| then q[j + 1] else NULL)
  }

  ghost predicate Shaped(v: Threads) {
    |v.next| == |v.first| == |v.last| == TASKS && |v.front| == |v.end| == PRIORITIES
  }

  ghost function Head(v: Threads, k: int): (t: int)
    requires Shaped(v) && 0 <= k < LISTS
  {
    if k < PRIORITIES then v.front[k] else if k < FREE then v.first[k - PRIORITIES] else v.free
  }

  ghost function Tail(v: Threads, k: int): (t: int)
    requires Shaped(v) && 0 <= k < FREE
  {
    if k < PRIORITIES then v.end[k] else v.last[k - PRIORITIES]
  }

  /** No task is in two lists, or twice in one. */
  ghost predicate Apart(lists: seq<seq<int>>) {
    && |lists| == LISTS
    && (forall k {:trigger lists[k]} :: 0 <= k < LISTS ==> NoDup(lists[k]))
    && (forall k, x {:trigger x in lists[k]} :: 0 <= k < LISTS && x in lists[k] ==> 0 <= x < TASKS)
    && (forall k, l, x {:trigger x in lists[k], x in lists[l]} ::
          0 <= k < LISTS && 0 <= l < LISTS && x in lists[k] && x in lists[l] ==> k == l)
  }

  /** The sender queue of a descriptor that is not live has no meaning. */
  ghost predicate Kept(k: int, live: set<int>) {
    0 <= k < LISTS && (k < PRIORITIES || k == FREE || k - PRIORITIES in live)
  }

  ghost predicate Threaded(v: Threads, lists: seq<seq<int>>, k: int)
    requires Shaped(v) && |lists| == LISTS && 0 <= k < LISTS
  {
    Chain(v.next, Head(v, k), lists[k]) && (k != FREE ==> Tail(v, k) == LastOf(lists[k]))
  }

  /** The links, heads and tails describe exactly these lists. */
  ghost predicate Linked(v: Threads, lists: seq<seq<int>>, live: set<int>) {
    && Shaped(v)
    && Apart(lists)
    && (forall k {:trigger lists[k]} :: Kept(k, live) ==> Threaded(v, lists, k))
    && v.highest == TopPriority(lists, PRIORITIES - 1)
  }

  ghost predicate Loose(lists: seq<seq<int>>, t: int) {
    |lists| == LISTS && 0 <= t < TASKS && forall k :: 0 <= k < LISTS ==> t !in lists[k]
  }

  // ---------- One chain ----------

  lemma ChainUntouched(next: seq<int>, next': seq<int>, head: int, q: seq<int>)
    requires Chain(next, head, q) && |next'| == |next|
    requires forall x :: x in q ==> 0 <= x < |next| && next'[x] == next[x]
    ensures Chain(next', head, q)
  {
    assert forall j :: 0 <= j < |q| ==> q[j] in q;
  }

  lemma ChainAppend(next: seq<int>, head: int, q: seq<int>, t: int)
    requires Chain(next, head, q) && NoDup(q) && t !in q && 0 <= t < |next|
    ensures var n := next[t := NULL];
      Chain(if q == [] then n else n[LastOf(q) := t], if q == [] then t else head, q + [t])
  {
    var n := next[t := NULL];
    var n2 := if q == [] then n else n[LastOf(q) := t];
    var q2 := q + [t];
    forall j | 0 <= j < |q2|
      ensures 0 <= q2[j] < |n2| && n2[q2[j]] == if j + 1 < |q2| then q2[j + 1] else NULL
    {
      if j < |q| {
        assert q2[j] == q[j] && q[j] in q;
      }
    }
  }

  lemma ChainTail(next: seq<int>, head: int, q: seq<int>)
    requires Chain(next, head, q) && q != []
    ensures Chain(next, next[head], q[1..]) && LastOf(q[1..]) == if q[1..] == [] then NULL else LastOf(q)
  {
    var tail := q[1..];
    assert next[q[0]] == if 1 < |q| then q[1] else NULL;
    forall j | 0 <= j < |tail|
      ensures 0 <= tail[j] < |next| && next[tail[j]] == if j + 1 < |tail| then tail[j + 1] else NULL
    {
      assert tail[j] == q[j + 1];
    }
  }

  lemma ChainPush(next: seq<int>, head: int, q: seq<int>, t: int)
    requires Chain(next, head, q) && t !in q && 0 <= t < |next|
    ensures Chain(next[t := head], t, [t] + q)
  {
    assert forall j :: 0 <= j < |q| ==> q[j] in q;
  }

  // ---------- The family of lists ----------

  lemma ApartAppend(lists: seq<seq<int>>, k: int, t: int)
    requires Apart(lists) && Loose(lists, t) && 0 <= k < LISTS
    ensures Apart(lists[k := lists[k] + [t]])
  {
    AppendMembers(lists[k], t);
  }

  lemma ApartPush(lists: seq<seq<int>>, k: int, t: int)
    requires Apart(lists) && Loose(lists, t) && 0 <= k < LISTS
    ensures Apart(lists[k := [t] + lists[k]])
  {
    PushMembers(t, lists[k]);
  }

  lemma ApartTail(lists: seq<seq<int>>, k: int)
    requires Apart(lists) && 0 <= k < LISTS && lists[k] != []
    ensures Apart(lists[k := lists[k][1..]])
    ensures Loose(lists[k := lists[k][1..]], lists[k][0])
  {
    TailMembers(lists[k]);
  }

  /** v2 differs from v, among heads and tails, for list k only. */
  ghost predicate OthersSame(v: Threads, v2: Threads, k: int) {
    && Shaped(v) && Shaped(v2)
    && (forall l :: 0 <= l < LISTS && l != k ==> Head(v2, l) == Head(v, l))
    && (forall l :: 0 <= l < FREE && l != k ==> Tail(v2, l) == Tail(v, l))
  }

  /** What appending t to list k does to the links. */
  ghost predicate Appends(v: Threads, v2: Threads, lists: seq<seq<int>>, k: int, t: int) {
    && OthersSame(v, v2, k) && |lists| == LISTS && 0 <= k < FREE && 0 <= t < TASKS
    && (lists[k] != [] ==> 0 <= Tail(v, k) < TASKS)
    && v2.next == (if lists[k] == [] then v.next[t := NULL] else v.next[t := NULL][Tail(v, k) := t])
    && Head(v2, k) == (if lists[k] == [] then t else Head(v, k)) && Tail(v2, k) == t
  }

  lemma AppendedThread(v: Threads, v2: Threads, lists: seq<seq<int>>, k: int, t: int)
    requires Appends(v, v2, lists, k, t) && Threaded(v, lists, k) && NoDup(lists[k]) && t !in lists[k]
    ensures Threaded(v2, lists[k := lists[k] + [t]], k)
  {
    ChainAppend(v.next, Head(v, k), lists[k], t);
  }

  lemma AppendKeeps(v: Threads, v2: Threads, lists: seq<seq<int>>, k: int, t: int, l: int)
    requires Appends(v, v2, lists, k, t) && Threaded(v, lists, k) && Apart(lists) && Loose(lists, t)
    requires 0 <= l < LISTS && l != k && Threaded(v, lists, l)
    ensures Threaded(v2, lists[k := lists[k] + [t]], l)
  {
    if lists[k] != [] {
      assert Tail(v, k) in lists[k];
    }
    forall x | x in lists[l]
      ensures 0 <= x < TASKS && v2.next[x] == v.next[x]
    {
    }
    ChainUntouched(v.next, v2.next, Head(v, l), lists[l]);
  }

  /** Appending t to list k: through the old tail, or as the only member. */
  lemma AppendLinked(v: Threads, v2: Threads, lists: seq<seq<int>>, live: set<int>, k: int, t: int)
    requires Linked(v, lists, live) && Loose(lists, t) && Kept(k, live) && Appends(v, v2, lists, k, t)
    requires v2.highest == TopPriority(lists[k := lists[k] + [t]], PRIORITIES - 1)
    ensures Linked(v2, lists[k := lists[k] + [t]], live)
  {
    hide Chain, TopPriority, Head, Tail;
    var lists2 := lists[k := lists[k] + [t]];
    ApartAppend(lists, k, t);
    assert Threaded(v, lists, k);
    forall l | Kept(l, live)
      ensures Threaded(v2, lists2, l)
    {
      if l != k {
        assert Threaded(v, lists, l);
        AppendKeeps(v, v2, lists, k, t, l);
      } else {
        AppendedThread(v, v2, lists, k, t);
      }
    }
  }

  /** Taking the head off list k; the link of the head may be cleared or left stale. */
  lemma PopLinked(v: Threads, v2: Threads, lists: seq<seq<int>>, live: set<int>, k: int)
    requires Linked(v, lists, live) && Kept(k, live) && lists[k] != []
    requires OthersSame(v, v2, k)
    requires forall x :: 0 <= x < TASKS && x != lists[k][0] ==> v2.next[x] == v.next[x]
    requires Head(v2, k) == v.next[Head(v, k)]
    requires k != FREE ==> Tail(v2, k) == if v.next[Head(v, k)] == NULL then NULL else Tail(v, k)
    requires v2.highest == TopPriority(lists[k := lists[k][1..]], PRIORITIES - 1)
    ensures Linked(v2, lists[k := lists[k][1..]], live)
    ensures Loose(lists[k := lists[k][1..]], lists[k][0])
  {
    var lists2 := lists[k := lists[k][1..]];
    ApartTail(lists, k);
    assert Threaded(v, lists, k);
    ChainTail(v.next, Head(v, k), lists[k]);
    HeadMember(lists[k]);
    HeadMember(lists[k][1..]);
    ChainUntouched(v.next, v2.next, v.next[Head(v, k)], lists[k][1..]);
    forall l | Kept(l, live)
      ensures Threaded(v2, lists2, l)
    {
      if l != k {
        assert Threaded(v, lists, l);
        ChainUntouched(v.next, v2.next, Head(v, l), lists[l]);
      }
    }
  }

  /** Pushing t on the front of the free list. */
  lemma PushLinked(v: Threads, lists: seq<seq<int>>, live: set<int>, t: int)
    requires Linked(v, lists, live) && Loose(lists, t)
    ensures Linked(v.(next := v.next[t := v.free], free := t), lists[FREE := [t] + lists[FREE]], live)
  {
    var v2 := v.(next := v.next[t := v.free], free := t);
    var lists2 := lists[FREE := [t] + lists[FREE]];
    ApartPush(lists, FREE, t);
    assert Threaded(v, lists, FREE);
    ChainPush(v.next, v.free, lists[FREE], t);
    forall l | Kept(l, live)
      ensures Threaded(v2, lists2, l)
    {
      if l != FREE {
        assert Threaded(v, lists, l);
        ChainUntouched(v.next, v2.next, Head(v, l), lists[l]);
      }
    }
    TopSame(lists, lists2, PRIORITIES - 1);
  }

  /** A loose task may get any link. */
  lemma LooseLink(v: Threads, lists: seq<seq<int>>, live: set<int>, t: int, link: int)
    requires Linked(v, lists, live) && Loose(lists, t)
    ensures Linked(v.(next := v.next[t := link]), lists, live)
  {
    var v2 := v.(next := v.next[t := link]);
    forall l | Kept(l, live)
      ensures Threaded(v2, lists, l)
    {
      assert Threaded(v, lists, l);
      ChainUntouched(v.next, v2.next, Head(v, l), lists[l]);
    }
  }

  /** A descriptor comes to life with an empty sender queue. */
  lemma BornLinked(v: Threads, lists: seq<seq<int>>, live: set<int>, t: int)
    requires Linked(v, lists, live) && 0 <= t < TASKS && lists[SenderQ(t)] == []
    ensures Linked(v.(first := v.first[t := NULL], last := v.last[t := NULL]), lists, live + {t})
  {
    var v2 := v.(first := v.first[t := NULL], last := v.last[t := NULL]);
    forall l | Kept(l, live + {t})
      ensures Threaded(v2, lists, l)
    {
      if l != SenderQ(t) {
        assert Threaded(v, lists, l);
      }
    }
  }

  lemma ApartEmpty(lists: seq<seq<int>>, k: int)
    requires Apart(lists) && 0 <= k < LISTS
    ensures Apart(lists[k := []])
  {
  }

  /** A descriptor dies, and its sender queue is forgotten. */
  lemma DiedLinked(v: Threads, lists: seq<seq<int>>, live: set<int>, t: int)
    requires Linked(v, lists, live) && 0 <= t < TASKS
    ensures Linked(v, lists[SenderQ(t) := []], live - {t})
  {
    hide Chain, TopPriority, NoDup;
    var lists2 := lists[SenderQ(t) := []];
    ApartEmpty(lists, SenderQ(t));
    forall l | Kept(l, live - {t})
      ensures Threaded(v, lists2, l)
    {
      assert Threaded(v, lists, l);
    }
    TopSame(lists, lists2, PRIORITIES - 1);
  }

  // ---------- What the handlers do to the threads ----------

  /** set_ready on a task that is in no queue. */
  ghost function PushReady(v: Threads, p: int, t: int): (r: Threads)
    requires Shaped(v) && 0 <= p < PRIORITIES && 0 <= t < TASKS
    requires v.front[p] != NULL ==> 0 <= v.end[p] < TASKS
  {
    var n := v.next[t := NULL];
    var v1 := v.(highest := if p > v.highest then p else v.highest, end := v.end[p := t]);
    if v.front[p] == NULL then v1.(next := n, front := v.front[p := t])
    else v1.(next := n[v.end[p] := t])
  }

  lemma PushReadyLinked(v: Threads, lists: seq<seq<int>>, live: set<int>, p: int, t: int)
    requires Linked(v, lists, live) && Loose(lists, t) && 0 <= p < PRIORITIES
    ensures v.front[p] != NULL ==> 0 <= v.end[p] < TASKS
    ensures Linked(PushReady(v, p, t), lists[p := lists[p] + [t]], live)
  {
    hide TopPriority, NoDup;
    assert Threaded(v, lists, p);
    HeadMember(lists[p]);
    assert lists[p] != [] ==> lists[p][|lists[p]| - 1] in lists[p];
    TopAppend(lists, p, t, PRIORITIES - 1);
    assert Appends(v, PushReady(v, p, t), lists, p, t);
    AppendLinked(v, PushReady(v, p, t), lists, live, p, t);
  }

  lemma PushReadyCleared(v: Threads, p: int, t: int)
    requires Shaped(v) && 0 <= p < PRIORITIES && 0 <= t < TASKS
    requires v.front[p] != NULL ==> 0 <= v.end[p] < TASKS
    ensures PushReady(v.(next := v.next[t := NULL]), p, t) == PushReady(v, p, t)
  {
    assert v.next[t := NULL][t := NULL] == v.next[t := NULL];
  }

  /** The last of a queue has no link. */
  lemma LastUnlinked(v: Threads, lists: seq<seq<int>>, live: set<int>, k: int)
    requires Linked(v, lists, live) && Kept(k, live) && lists[k] != []
    ensures 0 <= LastOf(lists[k]) < TASKS && v.next[LastOf(lists[k])] == NULL
  {
    assert Threaded(v, lists, k);
    assert lists[k][|lists[k]| - 1] in lists[k];
  }

  /** schedule: the head of ready queue p leaves, its link cleared. */
  ghost function PopReady(v: Threads, lists: seq<seq<int>>, p: int): (r: Threads)
    requires Shaped(v) && 0 <= p < PRIORITIES && 0 <= v.front[p] < TASKS
    requires |lists| == LISTS && lists[p] != []
  {
    var t := v.front[p];
    var rest := v.next[t];
    var v1 := v.(next := v.next[t := NULL], front := v.front[p := rest]);
    if rest == NULL then v1.(end := v.end[p := NULL], highest := TopPriority(lists[p := lists[p][1..]], p)) else v1
  }

  lemma PopReadyLinked(v: Threads, lists: seq<seq<int>>, live: set<int>)
    requires Linked(v, lists, live) && 0 <= v.highest
    ensures v.highest < PRIORITIES && lists[v.highest] != []
    ensures var p := v.highest;
      var lists2 := lists[p := lists[p][1..]];
      && 0 <= v.front[p] < TASKS && v.front[p] == lists[p][0]
      && (v.next[v.front[p]] == NULL <==> lists2[p] == [])
      && (forall k :: 0 <= k <= p ==> (PopReady(v, lists, p).front[k] == NULL <==> lists2[k] == []))
      && Linked(PopReady(v, lists, p), lists2, live) && Loose(lists2, v.front[p])
  {
    var p := v.highest;
    assert p < PRIORITIES && lists[p] != [] && forall i :: p < i < PRIORITIES ==> lists[i] == [] by {
      assert p == TopPriority(lists, PRIORITIES - 1);
    }
    var lists2 := lists[p := lists[p][1..]];
    assert Threaded(v, lists, p);
    HeadMember(lists[p]);
    HeadMember(lists2[p]);
    if lists2[p] == [] {
      TopBelow(lists2, PRIORITIES - 1, p);
    } else {
      TopSame(lists, lists2, PRIORITIES - 1);
    }
    PopLinked(v, PopReady(v, lists, p), lists, live, p);
    forall k | 0 <= k <= p
      ensures PopReady(v, lists, p).front[k] == NULL <==> lists2[k] == []
    {
      assert Threaded(v, lists, k);
      HeadMember(lists[k]);
    }
  }

  lemma TopIsHighest(v: Threads, lists: seq<seq<int>>, live: set<int>)
    requires Linked(v, lists, live)
    ensures v.highest == TopPriority(lists, PRIORITIES - 1)
  {
  }

  /** Queueing sender s behind r; unless the queue is empty, s's own link is not written. */
  ghost function PushSender(v: Threads, r: int, s: int): (w: Threads)
    requires Shaped(v) && 0 <= r < TASKS && 0 <= s < TASKS
    requires v.first[r] != NULL ==> 0 <= v.last[r] < TASKS
  {
    if v.first[r] == NULL then v.(first := v.first[r := s], last := v.last[r := s], next := v.next[s := NULL])
    else v.(next := v.next[v.last[r] := s], last := v.last[r := s])
  }

  lemma PushSenderLinked(v: Threads, lists: seq<seq<int>>, live: set<int>, r: int, s: int)
    requires Linked(v, lists, live) && Loose(lists, s) && 0 <= r < TASKS && r in live
    requires v.next[s] == NULL
    ensures v.first[r] != NULL ==> 0 <= v.last[r] < TASKS
    ensures Linked(PushSender(v, r, s), lists[SenderQ(r) := lists[SenderQ(r)] + [s]], live)
  {
    hide TopPriority, NoDup;
    var k := SenderQ(r);
    assert Threaded(v, lists, k);
    HeadMember(lists[k]);
    assert lists[k] != [] ==> lists[k][|lists[k]| - 1] in lists[k];
    TopSame(lists, lists[k := lists[k] + [s]], PRIORITIES - 1);
    assert v.next[s := NULL] == v.next;
    AppendLinked(v, PushSender(v, r, s), lists, live, k, s);
  }

  /** The first sender leaves r's queue; its own link stays as it is. */
  ghost function PopSender(v: Threads, r: int): (w: Threads)
    requires Shaped(v) && 0 <= r < TASKS && 0 <= v.first[r] < TASKS
  {
    var rest := v.next[v.first[r]];
    var v1 := v.(first := v.first[r := rest]);
    if rest == NULL then v1.(last := v.last[r := NULL]) else v1
  }

  lemma PopSenderLinked(v: Threads, lists: seq<seq<int>>, live: set<int>, r: int)
    requires Linked(v, lists, live) && 0 <= r < TASKS && r in live
    ensures v.first[r] == NULL <==> lists[SenderQ(r)] == []
    ensures v.first[r] != NULL ==>
      var k := SenderQ(r);
      var lists2 := lists[k := lists[k][1..]];
      && 0 <= v.first[r] < TASKS && v.first[r] == lists[k][0]
      && Linked(PopSender(v, r), lists2, live) && Loose(lists2, v.first[r])
  {
    var k := SenderQ(r);
    assert Threaded(v, lists, k);
    HeadMember(lists[k]);
    if lists[k] != [] {
      TopSame(lists, lists[k := lists[k][1..]], PRIORITIES - 1);
      PopLinked(v, PopSender(v, r), lists, live, k);
    }
  }

  /** The head of the free list leaves, its link cleared. */
  ghost function PopFree(v: Threads): (w: Threads)
    requires Shaped(v) && 0 <= v.free < TASKS
  {
    v.(free := v.next[v.free], next := v.next[v.free := NULL])
  }

  lemma PopFreeLinked(v: Threads, lists: seq<seq<int>>, live: set<int>)
    requires Linked(v, lists, live) && lists[FREE] != []
    ensures var lists2 := lists[FREE := lists[FREE][1..]];
      && 0 <= v.free < TASKS && v.free == lists[FREE][0]
      && Linked(PopFree(v), lists2, live) && Loose(lists2, v.free)
  {
    assert Threaded(v, lists, FREE);
    HeadMember(lists[FREE]);
    TopSame(lists, lists[FREE := lists[FREE][1..]], PRIORITIES - 1);
    PopLinked(v, PopFree(v), lists, live, FREE);
  }

  // ---------- The highest non-empty priority ----------

  lemma {:induction false} TopSame(lists: seq<seq<int>>, lists2: seq<seq<int>>, p: int)
    requires -1 <= p < |lists| && p < |lists2|
    requires forall i :: 0 <= i <= p ==> (lists2[i] == []) == (lists[i] == [])
    ensures TopPriority(lists2, p) == TopPriority(lists, p)
    decreases p + 1
  {
    if p >= 0 && lists[p] == [] {
      TopSame(lists, lists2, p - 1);
    }
  }

  lemma {:induction false} TopAppend(lists: seq<seq<int>>, k: int, t: int, p: int)
    requires 0 <= k < |lists| && -1 <= p < |lists|
    ensures TopPriority(lists[k := lists[k] + [t]], p) ==
      if k <= p && k > TopPriority(lists, p) then k else TopPriority(lists, p)
    decreases p + 1
  {
    var lists2 := lists[k := lists[k] + [t]];
    if p >= 0 && lists2[p] == [] {
      TopAppend(lists, k, t, p - 1);
    }
  }

  lemma {:induction false} TopBelow(lists: seq<seq<int>>, p: int, q: int)
    requires -1 <= q <= p < |lists|
    requires forall i :: q < i <= p ==> lists[i] == []
    ensures TopPriority(lists, p) == TopPriority(lists, q)
    decreases p - q
  {
    if q < p {
      TopBelow(lists, p - 1, q);
    }
  }
}
