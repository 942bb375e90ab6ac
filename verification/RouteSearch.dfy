/** The labels of the route search, and what each of its steps keeps.

    A search state is a node, reached normally (u) or just after a reversal
    (u + TRACK_MAX).  `order` lists the settled states in the order they were settled;
    `queue` holds the entries of the heap, stale ones included. */
module RouteSearch {
  import opened Heaps
  import opened Track

  const STATES := 2 * TRACK_MAX
  const NO_PARENT := -1

  /** What one search is about: the goal nodes, the costs, which edges others hold, and
      where a train may reverse. */
  datatype Query = Query(
    track: seq<Node>,
    start: int,
    fwdGoal: int,
    revGoal: int,
    reverseCost: int,
    reservedCost: int,
    conflict: seq<(bool, bool)>,
    reversible: seq<(bool, bool)>)

  datatype Labels = Labels(dist: seq<int>, cost: seq<int>, parent: seq<int>, edge: seq<int>)

  ghost predicate ValidQuery(q: Query) {
    && WellFormed(q.track)
    && |q.conflict| == TRACK_MAX && |q.reversible| == TRACK_MAX
    && IsNode(q.track, q.start)
    && 0 <= q.fwdGoal < TRACK_MAX && 0 <= q.revGoal < TRACK_MAX
    && 0 <= q.reservedCost && 0 <= q.reverseCost
    && q.reverseCost + q.reservedCost <= INT_MAX
    && (forall u, e :: HasEdge(q.track, u, e) ==> Dist(q.track, u, e) + q.reservedCost <= INT_MAX)
  }

  function Conflict(q: Query, u: int, e: int): (b: bool)
    requires 0 <= u < |q.conflict|
  {
    if e == 0 then q.conflict[u].0 else q.conflict[u].1
  }

  function Reversible(q: Query, u: int, e: int): (b: bool)
    requires 0 <= u < |q.reversible|
  {
    if e == 0 then q.reversible[u].0 else q.reversible[u].1
  }

  /** The cost of leaving u by edge e, or of reversing on that edge. */
  function StepCost(q: Query, u: int, e: int, reversing: bool): (c: int)
    requires 0 <= u < |q.conflict| && 0 <= u < |q.track|
  {
    (if reversing then q.reverseCost else Dist(q.track, u, e)) + if Conflict(q, u, e) then q.reservedCost else 0
  }

  // ---------- Path costs in 32 bits ----------

  function Wrap32(x: int): (r: int)
    requires 0 <= x < 0x1_0000_0000
  {
    if x > INT_MAX then x - 0x1_0000_0000 else x
  }

  /** The source adds the step and then the penalty, in 32-bit arithmetic, and takes a
      negative sum for an overflow: together they saturate. */
  function PathCost(cost: int, step: int, penalty: int): (r: int)
    requires 0 <= cost <= INT_MAX && 0 <= step && 0 <= penalty && step + penalty <= INT_MAX
    ensures r == if cost + step + penalty > INT_MAX then INT_MAX else cost + step + penalty
  {
    var sum := Wrap32(cost + step);
    var sum2 := if sum < 0 then sum + penalty else Wrap32(sum + penalty);
    if sum2 < 0 then INT_MAX else sum2
  }

  // ---------- Moves between states ----------

  ghost predicate IsState(x: int) {
    0 <= x < STATES
  }

  /** Edge e may be taken from state u: after a reversal at a branch, only back. */
  ghost predicate MayTake(q: Query, l: Labels, u: int, e: int)
    requires |q.track| == TRACK_MAX && |l.parent| == STATES
  {
    && IsState(u) && HasEdge(q.track, u % TRACK_MAX, e)
    && (u >= TRACK_MAX && q.track[u % TRACK_MAX].kind.Branch? ==>
          IsNode(q.track, Dest(q.track, u % TRACK_MAX, e)) &&
          l.parent[u] == q.track[Dest(q.track, u % TRACK_MAX, e)].reverse)
  }

  /** State x follows state u by edge e: at its end, or reversed on it. */
  ghost predicate IsMove(q: Query, l: Labels, u: int, e: int, x: int)
    requires |q.track| == TRACK_MAX && |q.reversible| == TRACK_MAX && |l.parent| == STATES
  {
    && MayTake(q, l, u, e) && IsState(x)
    && var v := Dest(q.track, u % TRACK_MAX, e);
    && IsNode(q.track, v)
    && if x < TRACK_MAX then x == v
       else u < TRACK_MAX && Reversible(q, u, e) && x == q.track[v].reverse + TRACK_MAX
  }

  // ---------- The invariant ----------

  ghost predicate Shaped(q: Query, l: Labels) {
    && ValidQuery(q)
    && |l.dist| == |l.cost| == |l.parent| == |l.edge| == STATES
    && (forall x :: 0 <= x < STATES ==> 0 <= l.cost[x] <= INT_MAX)
  }

  /** The start, in both layers, has cost zero and no parent; its reversed state is never
      in the heap. */
  ghost predicate Starts(q: Query, l: Labels)
    requires Shaped(q, l)
  {
    && l.cost[q.start] == 0 && l.dist[q.start] == 0 && l.parent[q.start] == NO_PARENT
    && l.cost[q.start + TRACK_MAX] == 0 && l.dist[q.start + TRACK_MAX] == 0
    && l.parent[q.start + TRACK_MAX] == NO_PARENT
  }

  ghost predicate Reached(q: Query, l: Labels, x: int)
    requires Shaped(q, l)
  {
    IsState(x) && x != q.start && x != q.start + TRACK_MAX && l.cost[x] < INT_MAX
  }

  /** A label comes from a settled parent by one move, with exact cost and distance. */
  ghost predicate Parented(q: Query, l: Labels, order: seq<int>, x: int)
    requires Shaped(q, l)
  {
    Reached(q, l, x) ==>
      var u, e := l.parent[x], l.edge[x];
      && u in order && IsMove(q, l, u, e, x)
      && l.cost[x] == l.cost[u] + StepCost(q, u % TRACK_MAX, e, x >= TRACK_MAX)
      && l.dist[x] == l.dist[u] + Dist(q.track, u % TRACK_MAX, e)
  }

  ghost predicate Parents(q: Query, l: Labels, order: seq<int>)
    requires Shaped(q, l)
  {
    forall x :: 0 <= x < STATES ==> Parented(q, l, order, x)
  }

  /** A labelled state that is not settled waits in the heap under its cost. */
  ghost predicate Waits(q: Query, l: Labels, order: seq<int>, queue: multiset<Entry>, x: int)
    requires Shaped(q, l)
  {
    IsState(x) && l.cost[x] < INT_MAX && x != q.start + TRACK_MAX && x !in order ==> (x, l.cost[x]) in queue
  }

  ghost predicate EntryOk(q: Query, l: Labels, order: seq<int>, queue: multiset<Entry>, en: Entry)
    requires Shaped(q, l)
  {
    && IsState(en.0) && en.0 != q.start + TRACK_MAX && IsNode(q.track, en.0 % TRACK_MAX)
    && l.cost[en.0] <= en.1 < INT_MAX
    && queue[en] == 1
    && (en.0 in order ==> l.cost[en.0] < en.1)
    && (forall i :: 0 <= i < |order| && IsState(order[i]) ==> l.cost[order[i]] <= en.1)
  }

  ghost predicate Queue(q: Query, l: Labels, order: seq<int>, queue: multiset<Entry>)
    requires Shaped(q, l)
  {
    && (forall x :: 0 <= x < STATES ==> Waits(q, l, order, queue, x))
    && (forall en {:trigger queue[en]} :: en in queue ==> EntryOk(q, l, order, queue, en))
  }

  /** States are settled once, in order of cost, after their parents. */
  ghost predicate Settled(q: Query, l: Labels, order: seq<int>)
    requires Shaped(q, l)
  {
    && (forall i {:trigger order[i]} :: 0 <= i < |order| ==>
          && IsState(order[i]) && order[i] != q.start + TRACK_MAX && l.cost[order[i]] < INT_MAX
          && IsNode(q.track, order[i] % TRACK_MAX)
          && (order[i] != q.start ==> l.parent[order[i]] in order[..i]))
    && (forall i, j :: 0 <= i < j < |order| ==> order[i] != order[j] && l.cost[order[i]] <= l.cost[order[j]])
  }

  /** Every edge that may be taken out of state u has been relaxed. */
  ghost predicate Expanded(q: Query, l: Labels, u: int)
    requires Shaped(q, l)
  {
    forall e :: 0 <= e <= 1 && MayTake(q, l, u, e) ==> EdgeExpanded(q, l, u, e)
  }

  /** Edge e out of state u has been relaxed, and the reversal on it if there is one. */
  ghost predicate EdgeExpanded(q: Query, l: Labels, u: int, e: int)
    requires Shaped(q, l) && MayTake(q, l, u, e)
  {
    var n := u % TRACK_MAX;
    var v := Dest(q.track, n, e);
    && (IsState(v) ==> l.cost[v] <= l.cost[u] + StepCost(q, n, e, false))
    && (u < TRACK_MAX && Reversible(q, u, e) && 0 <= v < TRACK_MAX && 0 <= q.track[v].reverse < TRACK_MAX ==>
          l.cost[q.track[v].reverse + TRACK_MAX] <= l.cost[u] + StepCost(q, n, e, true))
  }

  ghost predicate AllExpanded(q: Query, l: Labels, order: seq<int>, k: int)
    requires Shaped(q, l)
  {
    forall i {:trigger order[i]} :: 0 <= i < k && i < |order| ==> Expanded(q, l, order[i])
  }

  /** The invariant, with the first k settled states expanded. */
  ghost predicate Inv(q: Query, l: Labels, order: seq<int>, queue: multiset<Entry>, k: int) {
    && Shaped(q, l) && Starts(q, l)
    && Parents(q, l, order) && Queue(q, l, order, queue) && Settled(q, l, order) && AllExpanded(q, l, order, k)
  }

  ghost function Initial(q: Query, l: Labels): (r: Labels)
    requires |l.dist| == |l.cost| == |l.parent| == |l.edge| == STATES && 0 <= q.start < TRACK_MAX
  {
    var s, s2 := q.start, q.start + TRACK_MAX;
    l.(dist := l.dist[s := 0][s2 := 0], cost := l.cost[s := 0][s2 := 0],
       parent := l.parent[s := NO_PARENT][s2 := NO_PARENT], edge := l.edge[s := NO_PARENT][s2 := NO_PARENT])
  }

  lemma InitialInv(q: Query, l: Labels)
    requires ValidQuery(q) && |l.dist| == |l.cost| == |l.parent| == |l.edge| == STATES
    requires forall x :: 0 <= x < STATES ==> l.cost[x] == INT_MAX
    ensures Inv(q, Initial(q, l), [], multiset{(q.start, 0)}, 0)
  {
    var l2 := Initial(q, l);
    forall x | 0 <= x < STATES
      ensures Parented(q, l2, [], x) && Waits(q, l2, [], multiset{(q.start, 0)}, x)
    {
    }
  }

  lemma QueryBounds(q: Query)
    requires ValidQuery(q)
    ensures 0 <= q.start < TRACK_MAX && |q.track| == |q.conflict| == |q.reversible| == TRACK_MAX
  {
  }

  // ---------- Taking the least entry ----------

  ghost predicate IsLeast(queue: multiset<Entry>, en: Entry) {
    en in queue && forall o :: o in queue ==> en.1 <= o.1
  }

  /** A stale entry may be dropped. */
  lemma DropStale(q: Query, l: Labels, order: seq<int>, queue: multiset<Entry>, en: Entry)
    requires Inv(q, l, order, queue, |order|) && IsLeast(queue, en)
    requires IsState(en.0) && l.cost[en.0] < en.1
    ensures Inv(q, l, order, queue - multiset{en}, |order|)
  {
    var queue2 := queue - multiset{en};
    forall x | 0 <= x < STATES
      ensures Waits(q, l, order, queue2, x)
    {
      assert Waits(q, l, order, queue, x);
    }
    forall o | o in queue2
      ensures EntryOk(q, l, order, queue2, o)
    {
      assert o in queue;
    }
  }

  /** An entry that is not stale settles its state, at no less than any settled cost. */
  lemma Settle(q: Query, l: Labels, order: seq<int>, queue: multiset<Entry>, en: Entry)
    requires Inv(q, l, order, queue, |order|) && IsLeast(queue, en)
    requires IsState(en.0) && l.cost[en.0] >= en.1
    ensures en.0 !in order && l.cost[en.0] == en.1
    ensures Inv(q, l, order + [en.0], queue - multiset{en}, |order|)
  {
    var queue2, order2 := queue - multiset{en}, order + [en.0];
    assert EntryOk(q, l, order, queue, en);
    SettleQueue(q, l, order, queue, en);
    forall x | 0 <= x < STATES
      ensures Parented(q, l, order2, x)
    {
      assert Parented(q, l, order, x);
    }
    SettleOrder(q, l, order, en.0);
    assert AllExpanded(q, l, order2, |order|);
  }

  lemma SettleQueue(q: Query, l: Labels, order: seq<int>, queue: multiset<Entry>, en: Entry)
    requires Shaped(q, l) && Queue(q, l, order, queue) && Settled(q, l, order) && IsLeast(queue, en)
    requires IsState(en.0) && l.cost[en.0] >= en.1
    ensures Queue(q, l, order + [en.0], queue - multiset{en})
  {
    var queue2, order2 := queue - multiset{en}, order + [en.0];
    assert EntryOk(q, l, order, queue, en);
    forall x | 0 <= x < STATES
      ensures Waits(q, l, order2, queue2, x)
    {
      assert Waits(q, l, order, queue, x);
    }
    forall o | o in queue2
      ensures EntryOk(q, l, order2, queue2, o)
    {
      assert o in queue;
      assert EntryOk(q, l, order, queue, o);
      if o.0 == en.0 {
        assert o != en;
      }
    }
  }

  lemma SettleOrder(q: Query, l: Labels, order: seq<int>, x: int)
    requires Shaped(q, l) && Starts(q, l) && Parents(q, l, order) && Settled(q, l, order)
    requires IsState(x) && x !in order && x != q.start + TRACK_MAX
    requires l.cost[x] < INT_MAX && IsNode(q.track, x % TRACK_MAX)
    requires forall i :: 0 <= i < |order| ==> l.cost[order[i]] <= l.cost[x]
    ensures Settled(q, l, order + [x])
  {
    var order2 := order + [x];
    assert Parented(q, l, order, x);
    forall i | 0 <= i < |order2|
      ensures order2[i] != q.start ==> l.parent[order2[i]] in order2[..i]
    {
      assert order2[..i] == order[..i];
      if i == |order| {
        assert order[..i] == order;
      }
    }
  }

  // ---------- Relaxing an edge ----------

  ghost function Relaxed(l: Labels, u: int, e: int, x: int, d: int, c: int): (r: Labels)
    requires |l.dist| == |l.cost| == |l.parent| == |l.edge| == STATES && IsState(x)
  {
    Labels(l.dist[x := d], l.cost[x := c], l.parent[x := u], l.edge[x := e])
  }

  /** The move along e from u, the last settled state, gives x a lower cost. */
  ghost predicate Improves(q: Query, l: Labels, order: seq<int>, u: int, e: int, x: int, d: int, c: int)
    requires Shaped(q, l)
  {
    && order != [] && u == order[|order| - 1] && IsMove(q, l, u, e, x)
    && c == l.cost[u] + StepCost(q, u % TRACK_MAX, e, x >= TRACK_MAX) && c < l.cost[x]
    && d == l.dist[u] + Dist(q.track, u % TRACK_MAX, e)
  }

  lemma MoveTarget(q: Query, l: Labels, u: int, e: int, x: int)
    requires Shaped(q, l) && IsMove(q, l, u, e, x)
    ensures IsNode(q.track, x % TRACK_MAX) && 0 <= StepCost(q, u % TRACK_MAX, e, x >= TRACK_MAX)
  {
    assert EdgeOk(q.track, u % TRACK_MAX, e);
    assert ReverseOk(q.track, Dest(q.track, u % TRACK_MAX, e));
  }

  lemma LastDearest(q: Query, l: Labels, order: seq<int>, y: int)
    requires Shaped(q, l) && Settled(q, l, order) && order != [] && y in order
    ensures IsState(y) && IsState(order[|order| - 1]) && l.cost[y] <= l.cost[order[|order| - 1]]
  {
    var i :| 0 <= i < |order| && order[i] == y;
    if i < |order| - 1 {
      assert l.cost[order[i]] <= l.cost[order[|order| - 1]];
    }
  }

  /** A label of x that falls to c, while no settled state costs more than c. */
  ghost predicate Falls(q: Query, l: Labels, order: seq<int>, x: int, c: int)
    requires Shaped(q, l)
  {
    && IsState(x) && 0 <= c < l.cost[x]
    && x !in order && x != q.start && x != q.start + TRACK_MAX && IsNode(q.track, x % TRACK_MAX)
    && forall y :: y in order ==> IsState(y) && l.cost[y] <= c
  }

  /** The state whose label improves is not settled, and is not the start. */
  lemma ImprovedFalls(q: Query, l: Labels, order: seq<int>, u: int, e: int, x: int, d: int, c: int)
    requires Shaped(q, l) && Starts(q, l) && Settled(q, l, order) && Improves(q, l, order, u, e, x, d, c)
    ensures Falls(q, l, order, x, c) && u in order
  {
    hide WellFormed, StepCost, Settled;
    MoveTarget(q, l, u, e, x);
    forall y | y in order
      ensures IsState(y) && l.cost[y] <= l.cost[u]
    {
      LastDearest(q, l, order, y);
    }
  }

  lemma RelaxQueue(q: Query, l: Labels, order: seq<int>, queue: multiset<Entry>, u: int, e: int, x: int, d: int, c: int)
    requires Shaped(q, l) && Queue(q, l, order, queue) && Falls(q, l, order, x, c)
    ensures Shaped(q, Relaxed(l, u, e, x, d, c))
    ensures Queue(q, Relaxed(l, u, e, x, d, c), order, queue + multiset{(x, c)})
  {
    hide ValidQuery;
    var l2, queue2 := Relaxed(l, u, e, x, d, c), queue + multiset{(x, c)};
    assert (x, c) in queue ==> EntryOk(q, l, order, queue, (x, c));
    forall y | 0 <= y < STATES
      ensures Waits(q, l2, order, queue2, y)
    {
      assert Waits(q, l, order, queue, y);
    }
    assert forall i :: 0 <= i < |order| ==> order[i] in order;
    forall o | o in queue2
      ensures EntryOk(q, l2, order, queue2, o)
    {
      assert o == (x, c) || EntryOk(q, l, order, queue, o);
    }
  }

  lemma MoveStays(q: Query, l: Labels, l2: Labels, u: int, e: int, x: int)
    requires Shaped(q, l) && Shaped(q, l2) && IsState(u) && l2.parent[u] == l.parent[u]
    ensures IsMove(q, l, u, e, x) == IsMove(q, l2, u, e, x)
  {
  }

  lemma RelaxParents(q: Query, l: Labels, order: seq<int>, u: int, e: int, x: int, d: int, c: int)
    requires Shaped(q, l) && Parents(q, l, order) && Falls(q, l, order, x, c) && u in order
    requires Improves(q, l, order, u, e, x, d, c)
    ensures Shaped(q, Relaxed(l, u, e, x, d, c)) && Parents(q, Relaxed(l, u, e, x, d, c), order)
  {
    hide ValidQuery, IsMove, StepCost;
    var l2 := Relaxed(l, u, e, x, d, c);
    forall y | 0 <= y < STATES
      ensures Parented(q, l2, order, y)
    {
      assert Parented(q, l, order, y);
      if Reached(q, l2, y) {
        MoveStays(q, l, l2, l2.parent[y], l2.edge[y], y);
      }
    }
  }

  lemma RelaxSettled(q: Query, l: Labels, order: seq<int>, u: int, e: int, x: int, d: int, c: int)
    requires Shaped(q, l) && Starts(q, l) && Settled(q, l, order) && Falls(q, l, order, x, c)
    ensures var l2 := Relaxed(l, u, e, x, d, c);
      Shaped(q, l2) && Starts(q, l2) && Settled(q, l2, order)
  {
    hide WellFormed, StepCost, HasEdge;
    QueryBounds(q);
    var l2 := Relaxed(l, u, e, x, d, c);
    forall i | 0 <= i < |order|
      ensures IsState(order[i]) && l2.cost[order[i]] == l.cost[order[i]] && l2.parent[order[i]] == l.parent[order[i]]
    {
      assert order[i] in order;
    }
    SameSettled(q, l, l2, order);
  }

  lemma SameSettled(q: Query, l: Labels, l2: Labels, order: seq<int>)
    requires Shaped(q, l) && Shaped(q, l2) && Settled(q, l, order)
    requires forall i :: 0 <= i < |order| ==>
      IsState(order[i]) && l2.cost[order[i]] == l.cost[order[i]] && l2.parent[order[i]] == l.parent[order[i]]
    ensures Settled(q, l2, order)
  {
    hide Shaped, IsNode;
  }

  lemma RelaxExpanded(q: Query, l: Labels, order: seq<int>, u: int, e: int, x: int, d: int, c: int)
    requires Shaped(q, l) && Falls(q, l, order, x, c) && AllExpanded(q, l, order, |order| - 1)
    ensures var l2 := Relaxed(l, u, e, x, d, c);
      Shaped(q, l2) && AllExpanded(q, l2, order, |order| - 1)
  {
    hide StepCost, WellFormed;
    var l2 := Relaxed(l, u, e, x, d, c);
    forall i | 0 <= i < |order| - 1
      ensures Expanded(q, l2, order[i])
    {
      assert order[i] in order;
      ExpandedStays(q, l, l2, order[i]);
    }
  }

  /** A state that has been expanded stays so while other labels fall. */
  lemma ExpandedStays(q: Query, l: Labels, l2: Labels, u: int)
    requires Shaped(q, l) && Shaped(q, l2) && Expanded(q, l, u) && IsState(u)
    requires l2.cost[u] == l.cost[u] && l2.parent[u] == l.parent[u]
    requires forall y :: 0 <= y < STATES ==> l2.cost[y] <= l.cost[y]
    ensures Expanded(q, l2, u)
  {
    hide StepCost, WellFormed;
    QueryBounds(q);
    forall e | 0 <= e <= 1 && MayTake(q, l2, u, e)
      ensures EdgeExpanded(q, l2, u, e)
    {
      EdgeStays(q, l, l2, u, e);
    }
  }

  lemma EdgeStays(q: Query, l: Labels, l2: Labels, u: int, e: int)
    requires Shaped(q, l) && Shaped(q, l2) && MayTake(q, l, u, e) && EdgeExpanded(q, l, u, e)
    requires l2.cost[u] == l.cost[u] && l2.parent[u] == l.parent[u]
    requires forall y :: 0 <= y < STATES ==> l2.cost[y] <= l.cost[y]
    ensures MayTake(q, l2, u, e) && EdgeExpanded(q, l2, u, e)
  {
    hide StepCost, WellFormed;
  }

  /** Relaxing keeps the invariant; labels only fall, and settled ones stay. */
  lemma RelaxInv(q: Query, l: Labels, order: seq<int>, queue: multiset<Entry>, u: int, e: int, x: int, d: int, c: int)
    requires order != [] && Inv(q, l, order, queue, |order| - 1) && Improves(q, l, order, u, e, x, d, c)
    ensures Falls(q, l, order, x, c)
    ensures var l2 := Relaxed(l, u, e, x, d, c);
      && Inv(q, l2, order, queue + multiset{(x, c)}, |order| - 1)
      && (forall y :: y in order ==>
            IsState(y) && l2.cost[y] == l.cost[y] && l2.parent[y] == l.parent[y] && l2.dist[y] == l.dist[y])
  {
    hide Parents, Queue, Settled, AllExpanded, Improves, ValidQuery, Starts;
    ImprovedFalls(q, l, order, u, e, x, d, c);
    RelaxQueue(q, l, order, queue, u, e, x, d, c);
    RelaxParents(q, l, order, u, e, x, d, c);
    RelaxSettled(q, l, order, u, e, x, d, c);
    RelaxExpanded(q, l, order, u, e, x, d, c);
  }

  // ---------- Counting ----------

  /** A sequence of different states is no longer than there are states. */
  lemma {:induction false} DistinctBounded(s: seq<int>, n: nat)
    requires forall i :: 0 <= i < |s| ==> 0 <= s[i] < n
    requires forall i, j :: 0 <= i < j < |s| ==> s[i] != s[j]
    ensures |s| <= n
    decreases n
  {
    assert |s| > 0 ==> 0 <= s[0] < n;
    if n > 0 {
      if n - 1 in s {
        var i :| 0 <= i < |s| && s[i] == n - 1;
        DistinctBounded(s[..i] + s[i + 1..], n - 1);
      } else {
        assert forall i :: 0 <= i < |s| ==> s[i] in s;
        DistinctBounded(s, n - 1);
      }
    }
  }

  lemma OrderBounded(q: Query, l: Labels, order: seq<int>)
    requires Shaped(q, l) && Settled(q, l, order)
    ensures |order| < STATES
  {
    var all := order + [q.start + TRACK_MAX];
    DistinctBounded(all, STATES);
  }

  // ---------- What the search has found ----------

  /** The search is over: the heap is empty, or the state settled last is a goal, not
      expanded, and no dearer than anything in the heap. */
  ghost predicate Over(q: Query, l: Labels, order: seq<int>, queue: multiset<Entry>) {
    || (Inv(q, l, order, queue, |order|) && queue == multiset{})
    || (&& order != [] && Inv(q, l, order, queue, |order| - 1)
        && (order[|order| - 1] == q.fwdGoal || order[|order| - 1] == q.revGoal))
  }

  /** The lesser of the two goals' costs, which the search returns. */
  ghost function Found(q: Query, l: Labels): (c: int)
    requires Shaped(q, l)
  {
    if l.cost[q.fwdGoal] < l.cost[q.revGoal] then l.cost[q.fwdGoal] else l.cost[q.revGoal]
  }

  /** One step of a walk: to the end of an edge, or back on it. */
  datatype Step = Step(edge: int, back: bool)

  /** The node that a train faces once it has reversed on edge e out of u. */
  ghost function Behind(q: Query, u: int, e: int): (w: int)
    requires ValidQuery(q) && HasEdge(q.track, u, e)
    ensures 0 <= w < TRACK_MAX && IsNode(q.track, w)
  {
    assert EdgeOk(q.track, u, e) && ReverseOk(q.track, Dest(q.track, u, e));
    q.track[Dest(q.track, u, e)].reverse
  }

  /** A walk as the steps it takes, from node u to the goal.  If it has just reversed on an
      edge out of node `from`, it must not reverse again, and at a branch it can only go
      back where it came from; otherwise `from` is NO_PARENT. */
  ghost predicate IsWalk(q: Query, u: int, from: int, steps: seq<Step>, goal: int)
    requires ValidQuery(q)
    decreases |steps|
  {
    if steps == [] then u == goal && from == NO_PARENT
    else
      var e := steps[0].edge;
      && HasEdge(q.track, u, e)
      && (from >= 0 && q.track[u].kind.Branch? ==> Behind(q, u, e) == from)
      && if steps[0].back then
           from == NO_PARENT && MayTurn(q, u, e) && IsWalk(q, Behind(q, u, e), u, steps[1..], goal)
         else
           IsWalk(q, Dest(q.track, u, e), NO_PARENT, steps[1..], goal)
  }

  /** A train may reverse on edge e out of u.  When it then faces a branch, no train may
      reverse onto the branch from its other side: there the search goes on only from the
      side that is cheaper to come from. */
  ghost predicate MayTurn(q: Query, u: int, e: int)
    requires ValidQuery(q)
  {
    && HasEdge(q.track, u, e) && Reversible(q, u, e)
    && (q.track[Behind(q, u, e)].kind.Branch? ==> Unrivalled(q, u, Behind(q, u, e)))
  }

  ghost predicate Unrivalled(q: Query, u: int, w: int)
    requires ValidQuery(q)
  {
    forall u2, e2 {:trigger HasEdge(q.track, u2, e2)} ::
      HasEdge(q.track, u2, e2) && Reversible(q, u2, e2) && Behind(q, u2, e2) == w ==> u2 == u
  }

  ghost function WalkCost(q: Query, u: int, from: int, steps: seq<Step>, goal: int): (c: int)
    requires ValidQuery(q) && IsWalk(q, u, from, steps, goal)
    ensures c >= 0
    decreases |steps|
  {
    if steps == [] then 0
    else
      var e := steps[0].edge;
      assert EdgeOk(q.track, u, e);
      StepCost(q, u, e, steps[0].back) +
        if steps[0].back then WalkCost(q, Behind(q, u, e), u, steps[1..], goal)
        else WalkCost(q, Dest(q.track, u, e), NO_PARENT, steps[1..], goal)
  }

  /** The search state of a walk at u that may have just reversed. */
  ghost function StateOf(u: int, from: int): (x: int) {
    if from == NO_PARENT then u else u + TRACK_MAX
  }

  /** The walk has reached u by reversing, or without. */
  ghost predicate Came(q: Query, u: int, from: int)
    requires ValidQuery(q)
  {
    0 <= u < TRACK_MAX && (from == NO_PARENT || exists e :: MayTurn(q, from, e) && Behind(q, from, e) == u)
  }

  /** Whatever labelled state is not settled and expanded costs at least what was found. */
  lemma FrontierDear(q: Query, l: Labels, order: seq<int>, queue: multiset<Entry>, x: int)
    requires Over(q, l, order, queue) && IsState(x) && x != q.start + TRACK_MAX
    requires x !in order || !Expanded(q, l, x)
    ensures Shaped(q, l) && Found(q, l) <= l.cost[x]
  {
    hide Expanded, WellFormed;
    if l.cost[x] < INT_MAX {
      assert Waits(q, l, order, queue, x);
      if x !in order {
        assert (x, l.cost[x]) in queue;
        assert EntryOk(q, l, order, queue, (x, l.cost[x]));
        assert l.cost[order[|order| - 1]] <= l.cost[x];
      } else {
        var i :| 0 <= i < |order| && order[i] == x;
        assert i == |order| - 1;
      }
    }
  }

  /** The edge that a walk takes after a reversal is one that the search takes too. */
  lemma WalkTakes(q: Query, l: Labels, order: seq<int>, u: int, from: int, e: int)
    requires Shaped(q, l) && Parents(q, l, order) && Came(q, u, from) && HasEdge(q.track, u, e)
    requires from >= 0 && q.track[u].kind.Branch? ==> Behind(q, u, e) == from
    requires from != NO_PARENT ==> Reached(q, l, u + TRACK_MAX)
    ensures MayTake(q, l, StateOf(u, from), e)
  {
    hide WellFormed;
    assert 0 <= Dest(q.track, u, e) && IsNode(q.track, Dest(q.track, u, e)) by { EdgeEnds(q, u, e); }
    if from != NO_PARENT && q.track[u].kind.Branch? {
      var x := u + TRACK_MAX;
      assert Parented(q, l, order, x);
      var p, f := l.parent[x], l.edge[x];
      assert HasEdge(q.track, p, f) && Reversible(q, p, f) && Behind(q, p, f) == u;
      var g :| MayTurn(q, from, g) && Behind(q, from, g) == u;
      assert Unrivalled(q, from, u);
      assert p == from;
    }
  }

  lemma EdgeEnds(q: Query, u: int, e: int)
    requires ValidQuery(q) && HasEdge(q.track, u, e)
    ensures 0 <= u < TRACK_MAX && 0 <= Dest(q.track, u, e) < TRACK_MAX && IsNode(q.track, Dest(q.track, u, e))
    ensures 0 <= StepCost(q, u, e, false) && 0 <= StepCost(q, u, e, true)
  {
    assert EdgeOk(q.track, u, e);
  }

  /** After its first step, a walk without a reversal just before could have begun as well. */
  lemma Unturned(q: Query, u: int, from: int, steps: seq<Step>, goal: int)
    requires ValidQuery(q) && IsWalk(q, u, from, steps, goal) && from != NO_PARENT
    ensures IsWalk(q, u, NO_PARENT, steps, goal)
    ensures WalkCost(q, u, NO_PARENT, steps, goal) == WalkCost(q, u, from, steps, goal)
  {
  }

  /** The cost found is at most that of any walk from u to a goal, added to the cost of u. */
  lemma {:induction false} NoCheaperWalk(q: Query, l: Labels, order: seq<int>, queue: multiset<Entry>, u: int,
                                         from: int, steps: seq<Step>, goal: int)
    requires Over(q, l, order, queue) && ValidQuery(q) && Came(q, u, from)
    requires (goal == q.fwdGoal || goal == q.revGoal) && IsWalk(q, u, from, steps, goal)
    ensures Shaped(q, l) && Found(q, l) <= l.cost[StateOf(u, from)] + WalkCost(q, u, from, steps, goal)
    decreases |steps|, if from == NO_PARENT then 0 else 1
  {
    hide WellFormed, Parents, Queue, Settled, AllExpanded, StepCost, Expanded, MayTurn;
    var x := StateOf(u, from);
    if x == q.start + TRACK_MAX {
      Unturned(q, u, from, steps, goal);
      NoCheaperWalk(q, l, order, queue, u, NO_PARENT, steps, goal);
    } else if steps == [] {
    } else if x !in order || !Expanded(q, l, x) {
      FrontierDear(q, l, order, queue, x);
    } else {
      var e := steps[0].edge;
      EdgeEnds(q, u, e);
      if from != NO_PARENT { SettledReached(q, l, order, x); }
      WalkTakes(q, l, order, u, from, e);
      StepExpanded(q, l, x, e);
      if steps[0].back {
        assert MayTurn(q, u, e) && Behind(q, u, e) == Behind(q, u, e);
        TurnReversible(q, u, e);
        NoCheaperWalk(q, l, order, queue, Behind(q, u, e), u, steps[1..], goal);
      } else {
        NoCheaperWalk(q, l, order, queue, Dest(q.track, u, e), NO_PARENT, steps[1..], goal);
      }
    }
  }

  lemma SettledReached(q: Query, l: Labels, order: seq<int>, x: int)
    requires Shaped(q, l) && Settled(q, l, order) && x in order && x >= TRACK_MAX
    ensures Reached(q, l, x)
  {
    var i :| 0 <= i < |order| && order[i] == x;
  }

  lemma StepExpanded(q: Query, l: Labels, x: int, e: int)
    requires Shaped(q, l) && Expanded(q, l, x) && MayTake(q, l, x, e)
    ensures EdgeExpanded(q, l, x, e)
  {
  }

  lemma TurnReversible(q: Query, u: int, e: int)
    requires ValidQuery(q) && MayTurn(q, u, e)
    ensures HasEdge(q.track, u, e) && Reversible(q, u, e)
  {
  }

  lemma ExpandedInv(q: Query, l: Labels, order: seq<int>, queue: multiset<Entry>)
    requires order != [] && Inv(q, l, order, queue, |order| - 1) && Expanded(q, l, order[|order| - 1])
    ensures Inv(q, l, order, queue, |order|)
  {
    hide Expanded, Parents, Queue, Settled, ValidQuery, Starts;
    assert forall i :: 0 <= i < |order| ==> i < |order| - 1 || order[i] == order[|order| - 1];
  }

  // ---------- From parents to a route ----------

  datatype RouteNode = RouteNode(node: int, distance: int, edge: int, reverseHere: bool)

  /** The position of x in s, or the length of s. */
  ghost function IndexOf(s: seq<int>, x: int): (i: nat)
    ensures i <= |s| && (i < |s| <==> x in s) && (i < |s| ==> s[i] == x)
    ensures forall j :: 0 <= j <= |s| && x in s[..j] ==> i < j
  {
    if s == [] || s[0] == x then 0
    else
      assert forall j :: 0 < j <= |s| ==> s[..j] == [s[0]] + s[1..][..j - 1];
      1 + IndexOf(s[1..], x)
  }

  /** A state's parent was settled before it. */
  lemma ParentEarlier(q: Query, l: Labels, order: seq<int>, x: int)
    requires Shaped(q, l) && Parents(q, l, order) && Settled(q, l, order) && Reached(q, l, x)
    ensures var u := l.parent[x];
      && IsState(u) && u in order && u != q.start + TRACK_MAX && l.cost[u] < INT_MAX
      && IndexOf(order, u) < IndexOf(order, x)
  {
    assert Parented(q, l, order, x);
    if x in order {
      assert order[IndexOf(order, x)] == x;
    }
    assert order[IndexOf(order, l.parent[x])] == l.parent[x];
  }

  ghost predicate AreStates(p: seq<int>) {
    forall i :: 0 <= i < |p| ==> 0 <= p[i] < STATES
  }

  /** A path of search states from the start, each the parent of the next. */
  ghost predicate IsPath(q: Query, l: Labels, p: seq<int>)
    requires Shaped(q, l)
  {
    && p != [] && p[0] == q.start
    && AreStates(p)
    && forall i :: 0 <= i < |p| - 1 ==> LinkAt(q, l, p, i)
  }

  ghost predicate LinkAt(q: Query, l: Labels, p: seq<int>, i: int)
    requires Shaped(q, l) && 0 <= i < |p| - 1
  {
    Reached(q, l, p[i + 1]) && l.parent[p[i + 1]] == p[i]
  }

  ghost function RouteOf(q: Query, l: Labels, p: seq<int>): (r: seq<RouteNode>)
    requires Shaped(q, l) && AreStates(p)
    ensures |r| == |p|
  {
    seq(|p|, i requires 0 <= i < |p| => NodeOf(q, l, p, i))
  }

  ghost function NodeOf(q: Query, l: Labels, p: seq<int>, i: int): (r: RouteNode)
    requires Shaped(q, l) && 0 <= i < |p| && AreStates(p)
  {
    if i + 1 < |p| then RouteNode(p[i] % TRACK_MAX, l.dist[p[i]], l.edge[p[i + 1]], p[i + 1] >= TRACK_MAX)
    else RouteNode(p[i] % TRACK_MAX, l.dist[p[i]], 0, false)
  }

  /** Node b follows node a: at the end of a's edge, or reversed on it. */
  ghost predicate Follows(q: Query, a: RouteNode, b: RouteNode)
    requires ValidQuery(q)
  {
    && HasEdge(q.track, a.node, a.edge)
    && var v := Dest(q.track, a.node, a.edge);
    && IsNode(q.track, v)
    && b.node == (if a.reverseHere then q.track[v].reverse else v)
    && b.distance == a.distance + Dist(q.track, a.node, a.edge)
    && (a.reverseHere ==> Reversible(q, a.node, a.edge) && !b.reverseHere)
  }

  /** After reversing at a, the step from b runs back over the same edge. */
  ghost predicate Retraces(q: Query, a: RouteNode, b: RouteNode)
    requires ValidQuery(q)
  {
    && IsNode(q.track, a.node) && HasEdge(q.track, b.node, b.edge)
    && IsMirror(q.track, a.node, a.edge, b.node, b.edge)
  }

  ghost predicate StepOk(q: Query, r: seq<RouteNode>, i: int)
    requires ValidQuery(q) && 0 <= i < |r| - 1
  {
    Follows(q, r[i], r[i + 1])
  }

  ghost predicate Connected(q: Query, r: seq<RouteNode>)
    requires ValidQuery(q)
  {
    forall i :: 0 <= i < |r| - 1 ==> StepOk(q, r, i)
  }

  /** A route that a train can follow from the start to the goal. */
  ghost predicate IsRoute(q: Query, r: seq<RouteNode>, goal: int)
    requires ValidQuery(q)
  {
    && r != [] && r[0].node == q.start && r[0].distance == 0
    && Connected(q, r)
    && (forall i :: 0 <= i < |r| - 2 && r[i].reverseHere ==> Retraces(q, r[i], r[i + 1]))
    && r[|r| - 1].node == goal && r[|r| - 1].edge == 0 && !r[|r| - 1].reverseHere
  }

  /** The cost of the first n steps of a route. */
  ghost function RouteCost(q: Query, r: seq<RouteNode>, n: nat): (c: int)
    requires ValidQuery(q) && n < |r| && Connected(q, r)
  {
    if n == 0 then 0
    else
      assert StepOk(q, r, n - 1);
      RouteCost(q, r, n - 1) + StepCost(q, r[n - 1].node, r[n - 1].edge, r[n - 1].reverseHere)
  }

  /** One step of the path is one step of the route. */
  lemma PathStep(q: Query, l: Labels, order: seq<int>, p: seq<int>, i: nat)
    requires Shaped(q, l) && Parents(q, l, order) && IsPath(q, l, p) && i + 1 < |p|
    ensures Follows(q, NodeOf(q, l, p, i), NodeOf(q, l, p, i + 1))
    ensures IsMove(q, l, p[i], l.edge[p[i + 1]], p[i + 1])
    ensures l.cost[p[i + 1]] == l.cost[p[i]] + StepCost(q, p[i] % TRACK_MAX, l.edge[p[i + 1]], p[i + 1] >= TRACK_MAX)
  {
    assert LinkAt(q, l, p, i) && Parented(q, l, order, p[i + 1]);
    var v := Dest(q.track, p[i] % TRACK_MAX, l.edge[p[i + 1]]);
    assert ReverseOk(q.track, v);
    if i + 2 < |p| {
      assert LinkAt(q, l, p, i + 1) && Parented(q, l, order, p[i + 2]);
    }
  }

  lemma PathRetraces(q: Query, l: Labels, order: seq<int>, p: seq<int>, i: nat)
    requires Shaped(q, l) && Parents(q, l, order) && IsPath(q, l, p) && i + 2 < |p| && p[i + 1] >= TRACK_MAX
    ensures Retraces(q, NodeOf(q, l, p, i), NodeOf(q, l, p, i + 1))
  {
    PathStep(q, l, order, p, i);
    PathStep(q, l, order, p, i + 1);
    assert LinkAt(q, l, p, i);
    var u, e := p[i], l.edge[p[i + 1]];
    assert EdgeOk(q.track, u, e) && ReverseOk(q.track, u);
    var w := q.track[Dest(q.track, u, e)].reverse;
    var f := l.edge[p[i + 2]];
    assert ReverseOk(q.track, Dest(q.track, w, f));
    assert Dest(q.track, w, f) == q.track[u].reverse;
    assert IsMirror(q.track, u, e, w, f);
  }

  /** The route read off a path of parents is a real one, and costs what its last state
      is labelled with. */
  lemma PathIsRoute(q: Query, l: Labels, order: seq<int>, p: seq<int>)
    requires Shaped(q, l) && Starts(q, l) && Parents(q, l, order) && IsPath(q, l, p)
    ensures var r := RouteOf(q, l, p);
      IsRoute(q, r, p[|p| - 1] % TRACK_MAX) && RouteCost(q, r, |r| - 1) == l.cost[p[|p| - 1]]
  {
    hide Parents, Follows, Retraces, IsPath, RouteCost, ValidQuery, NodeOf;
    PathEnds(q, l, p);
    var r := RouteOf(q, l, p);
    PathConnected(q, l, order, p);
    forall i | 0 <= i < |r| - 2 && r[i].reverseHere
      ensures Retraces(q, r[i], r[i + 1])
    {
      ReverseAt(q, l, p, i);
      PathRetraces(q, l, order, p, i);
    }
    PathCostExact(q, l, order, p, |p| - 1);
  }

  lemma PathConnected(q: Query, l: Labels, order: seq<int>, p: seq<int>)
    requires Shaped(q, l) && Parents(q, l, order) && IsPath(q, l, p)
    ensures Connected(q, RouteOf(q, l, p))
  {
    hide Parents, Follows, ValidQuery, NodeOf;
    var r := RouteOf(q, l, p);
    forall i | 0 <= i < |r| - 1
      ensures StepOk(q, r, i)
    {
      PathStep(q, l, order, p, i);
    }
  }

  lemma PathEnds(q: Query, l: Labels, p: seq<int>)
    requires Shaped(q, l) && Starts(q, l) && IsPath(q, l, p)
    ensures p != [] && AreStates(p)
    ensures var r := RouteOf(q, l, p);
      && r[0].node == q.start && r[0].distance == 0
      && r[|r| - 1].node == p[|p| - 1] % TRACK_MAX && r[|r| - 1].edge == 0 && !r[|r| - 1].reverseHere
  {
    QueryBounds(q);
  }

  lemma ReverseAt(q: Query, l: Labels, p: seq<int>, i: nat)
    requires Shaped(q, l) && IsPath(q, l, p) && i + 1 < |p|
    ensures NodeOf(q, l, p, i).reverseHere <==> p[i + 1] >= TRACK_MAX
  {
  }

  lemma {:induction false} PathCostExact(q: Query, l: Labels, order: seq<int>, p: seq<int>, n: nat)
    requires Shaped(q, l) && Starts(q, l) && Parents(q, l, order) && IsPath(q, l, p) && n < |p|
    requires Connected(q, RouteOf(q, l, p))
    ensures RouteCost(q, RouteOf(q, l, p), n) == l.cost[p[n]]
  {
    if n > 0 {
      PathCostExact(q, l, order, p, n - 1);
      PathStep(q, l, order, p, n - 1);
    }
  }
}
