/** The route search itself: Dijkstra's algorithm with stale heap entries, and the
    reconstruction of the route from the parent links. */
module ShortestRoutes {
  import opened Heaps
  import opened Track
  import opened RouteSearch

  // Each state adds at most four entries when it is expanded.
  const CAPACITY := 1 + 4 * STATES

  class Search {
    const q: Query
    const distance: array<int>
    const cost: array<int>
    const parent: array<int>
    const parentEdge: array<int>
    const heap: Heap
    ghost var order: seq<int>

    ghost predicate Wired() {
      && distance.Length == cost.Length == parent.Length == parentEdge.Length == STATES
      && distance != cost && distance != parent && distance != parentEdge
      && cost != parent && cost != parentEdge && parent != parentEdge
      && heap.maxSize == CAPACITY
      && heap.elements !in {distance, cost, parent, parentEdge}
      && heap.priorities !in {distance, cost, parent, parentEdge}
    }

    ghost function Labelling(): (l: Labels)
      reads distance, cost, parent, parentEdge
    {
      Labels(distance[..], cost[..], parent[..], parentEdge[..])
    }

    ghost function Queued(): (s: multiset<Entry>)
      requires heap.Sized()
      reads heap, heap.elements, heap.priorities
    {
      heap.Bag()
    }

    ghost predicate Ok(k: int)
      reads this, heap, heap.elements, heap.priorities, distance, cost, parent, parentEdge
    {
      Wired() && heap.Valid() && Inv(q, Labelling(), order, Queued(), k)
    }

    constructor (q: Query)
      requires ValidQuery(q)
      ensures Wired() && heap.Valid() && Queued() == multiset{} && this.q == q && order == []
      ensures fresh(heap) && fresh(heap.elements) && fresh(heap.priorities)
      ensures fresh(distance) && fresh(cost) && fresh(parent) && fresh(parentEdge)
    {
      this.q := q;
      distance := new int[STATES];
      cost := new int[STATES];
      parent := new int[STATES];
      parentEdge := new int[STATES];
      var elements := new int[CAPACITY];
      var priorities := new int[CAPACITY];
      heap := new Heap(elements, priorities);
      order := [];
    }

    /** Every state is unreached, except the start. */
    method Initialize()
      requires Wired() && heap.Valid() && Queued() == multiset{} && ValidQuery(q) && order == []
      modifies heap, heap.elements, heap.priorities, distance, cost, parent, parentEdge
      ensures Ok(0) && heap.size == 1
    {
      hide Ordered, Inv, ValidQuery, Heap.Entries;
      QueryBounds(q);
      EmptyHeap();
      heap.Add(q.start, 0);
      assert Queued() == multiset{(q.start, 0)};
      for i := 0 to STATES
        invariant forall x :: 0 <= x < i ==> cost[x] == INT_MAX
        modifies distance, cost, parent, parentEdge
      {
        distance[i] := INT_MAX;
        cost[i] := INT_MAX;
        parent[i] := NO_PARENT;
        parentEdge[i] := NO_PARENT;
      }
      ghost var blank := Labelling();
      InitialInv(q, blank);
      LabelStart();
    }

    method LabelStart()
      requires Wired() && 0 <= q.start < TRACK_MAX
      modifies distance, cost, parent, parentEdge
      ensures Labelling() == Initial(q, old(Labelling()))
    {
      var start := q.start;
      distance[start] := 0;
      cost[start] := 0;
      parent[start] := NO_PARENT;
      parentEdge[start] := NO_PARENT;
      distance[start + TRACK_MAX] := 0;
      cost[start + TRACK_MAX] := 0;
      parent[start + TRACK_MAX] := NO_PARENT;
      parentEdge[start + TRACK_MAX] := NO_PARENT;
    }

    lemma EmptyHeap()
      requires heap.Sized() && Queued() == multiset{}
      ensures heap.size == 0
    {
      assert |multiset(heap.Entries())| == |heap.Entries()|;
    }

    /** A cheaper way to state x, from u along edge e, replaces x's label. */
    method Relax(u: int, e: int, x: int, pathDistance: int, pathCost: int)
      requires order != [] && Ok(|order| - 1) && u == order[|order| - 1]
      requires IsMove(q, Labelling(), u, e, x)
      requires pathDistance == distance[u] + Dist(q.track, u % TRACK_MAX, e)
      requires var sum := cost[u] + StepCost(q, u % TRACK_MAX, e, x >= TRACK_MAX);
        pathCost == if sum > INT_MAX then INT_MAX else sum
      requires heap.size < CAPACITY
      modifies heap, heap.elements, heap.priorities, distance, cost, parent, parentEdge
      ensures Ok(|order| - 1) && old(heap.size) <= heap.size <= old(heap.size) + 1
      ensures forall y :: 0 <= y < STATES ==> cost[y] <= old(cost[y])
      ensures forall y :: y in order && 0 <= y < STATES ==>
        cost[y] == old(cost[y]) && parent[y] == old(parent[y]) && distance[y] == old(distance[y])
      ensures cost[x] <= pathCost
    {
      hide Ordered, Parents, Queue, Settled, AllExpanded, ValidQuery, Starts, StepCost, Dist, HasEdge, Heap.Entries;
      ghost var l := Labelling();
      if cost[x] > pathCost {
        ghost var queue := Queued();
        assert l.cost[x] == cost[x] && l.cost[u] == cost[u] && l.dist[u] == distance[u];
        assert Improves(q, l, order, u, e, x, pathDistance, pathCost);
        RelaxInv(q, l, order, queue, u, e, x, pathDistance, pathCost);
        distance[x] := pathDistance;
        cost[x] := pathCost;
        parent[x] := u;
        parentEdge[x] := e;
        heap.Add(x, cost[x]);
        assert Labelling() == Relaxed(l, u, e, x, pathDistance, pathCost);
      }
    }

    /** Relaxes one edge out of u, and the reversal on it when u was reached normally. */
    method RelaxEdge(u: int, e: int)
      requires order != [] && Ok(|order| - 1) && u == order[|order| - 1]
      requires MayTake(q, Labelling(), u, e)
      requires heap.size + 1 < CAPACITY
      modifies heap, heap.elements, heap.priorities, distance, cost, parent, parentEdge
      ensures Ok(|order| - 1) && heap.size <= old(heap.size) + 2
      ensures forall y :: 0 <= y < STATES ==> cost[y] <= old(cost[y])
      ensures forall y :: y in order && 0 <= y < STATES ==>
        cost[y] == old(cost[y]) && parent[y] == old(parent[y]) && distance[y] == old(distance[y])
      ensures parent[u] == old(parent[u]) && MayTake(q, Labelling(), u, e) && EdgeExpanded(q, Labelling(), u, e)
    {
      hide Conflict, Reversible, Ordered, Inv, WellFormed, StepCost, IsMove, MayTake, EdgeExpanded, Dist, EdgeOf,
        Heap.Entries;
      ghost var l := Labelling();
      InvShaped(q, l, order, Queued(), |order| - 1);
      QueryBounds(q);
      EdgeBounds(q, Labelling(), order, Queued(), u, e);
      assert u in order;
      var n := u % TRACK_MAX;
      var v := Dest(q.track, n, e);
      var pathDistance := distance[u] + Dist(q.track, n, e);
      var penalty := if Conflict(q, n, e) then q.reservedCost else 0;
      var pathCost := PathCost(cost[u], Dist(q.track, n, e), penalty);
      StepSplits(q, n, e);
      Relax(u, e, v, pathDistance, pathCost);
      if u < TRACK_MAX && Reversible(q, n, e) {
        InvShaped(q, Labelling(), order, Queued(), |order| - 1);
        MoveStays(q, l, Labelling(), u, e, q.track[v].reverse + TRACK_MAX);
        pathCost := PathCost(cost[u], q.reverseCost, penalty);
        Relax(u, e, q.track[v].reverse + TRACK_MAX, pathDistance, pathCost);
      }
      InvShaped(q, Labelling(), order, Queued(), |order| - 1);
      EdgeRelaxed(q, l, Labelling(), u, e);
    }

    /** Expands the state settled last: after a reversal at a branch, only backwards. */
    method Expand(u: int)
      requires order != [] && Ok(|order| - 1) && u == order[|order| - 1]
      requires heap.size + 3 < CAPACITY
      modifies heap, heap.elements, heap.priorities, distance, cost, parent, parentEdge
      ensures Ok(|order|) && heap.size <= old(heap.size) + 4
      ensures forall y :: y in order && 0 <= y < STATES ==>
        cost[y] == old(cost[y]) && parent[y] == old(parent[y]) && distance[y] == old(distance[y])
    {
      hide Ordered, Inv, ValidQuery, StepCost, Heap.Entries;
      NodeBounds(q, Labelling(), order, Queued());
      assert u in order;
      var reversed := u >= TRACK_MAX;
      var n := u % TRACK_MAX;
      var kind := q.track[n].kind;
      if !kind.Exit? && (!reversed || !kind.Branch? || parent[u] == q.track[q.track[n].ahead.dest].reverse) {
        RelaxEdge(u, 0);
      }
      ghost var between := Labelling();
      if kind.Branch? && (!reversed || parent[u] == q.track[q.track[n].curved.dest].reverse) {
        RelaxEdge(u, 1);
      }
      InvShaped(q, Labelling(), order, Queued(), |order| - 1);
      BothExpanded(q, between, Labelling(), u);
      ExpandedInv(q, Labelling(), order, Queued());
    }

    /** Takes the least entry off the heap; unless it is stale, its state is settled. */
    method TakeNearest() returns (cur: int, settled: bool)
      requires Ok(|order|) && heap.size > 0
      modifies this`order, heap, heap.elements, heap.priorities
      ensures heap.size == old(heap.size) - 1
      ensures !settled ==> order == old(order) && Ok(|order|)
      ensures settled ==> order == old(order) + [cur] && Ok(|order| - 1) && |order| < STATES
    {
      hide Ordered, Inv, ValidQuery, Shaped, IsLeast, Starts, Parents, Queue, Settled, AllExpanded, Heap.Entries;
      ghost var l, queue := Labelling(), Queued();
      InvShaped(q, l, order, queue, |order|);
      var curCost := heap.MinPriority();
      cur := heap.RemoveMin();
      EntryBounds(q, l, order, queue, (cur, curCost));
      settled := cost[cur] >= curCost;
      if settled {
        Settle(q, l, order, queue, (cur, curCost));
        order := order + [cur];
        SettledBounded(q, l, order, Queued(), |order| - 1);
      } else {
        DropStale(q, l, order, queue, (cur, curCost));
      }
    }

    /** Settles states in order of cost until a goal is settled or nothing is left. */
    method Explore()
      requires Ok(0) && order == [] && heap.size == 1
      modifies this`order, heap, heap.elements, heap.priorities, distance, cost, parent, parentEdge
      ensures Wired() && heap.Valid() && Over(q, Labelling(), order, Queued())
    {
      hide Inv, Over, Ordered, Heap.Entries;
      var least := MinQueued();
      while least >= 0
        invariant Ok(|order|) && heap.size <= 1 + 4 * |order| && |order| < STATES
        invariant least >= 0 <==> heap.size > 0
        decreases STATES - |order|, heap.size
      {
        var cur, settled := TakeNearest();
        if settled {
          if cur == q.fwdGoal || cur == q.revGoal {
            GoalIsOver(q, Labelling(), order, Queued());
            return;
          }
          Expand(cur);
        }
        least := MinQueued();
      }
      EmptyIsOver(q, Labelling(), order, Queued(), heap);
    }

    /** No priority is negative, so that only an empty heap ends the search. */
    method MinQueued() returns (least: int)
      requires Ok(|order|)
      ensures least >= 0 <==> heap.size > 0
    {
      least := heap.MinPriority();
      if heap.size > 0 {
        RootLeastOfAll(heap.Entries());
        EntryBounds(q, Labelling(), order, Queued(), heap.Entries()[0]);
      }
    }

    /** Walks the parent links back from `end`; it always gets to the start. */
    method WalkBack(end: int, backwards: array<int>, backwardsEdge: array<int>) returns (length: nat)
      requires Wired() && Labelled(q, Labelling(), order) && |order| < STATES
      requires end == q.start || Reached(q, Labelling(), end)
      requires backwards.Length == backwardsEdge.Length == STATES && backwards != backwardsEdge
      requires {backwards, backwardsEdge} !! {distance, cost, parent, parentEdge}
      modifies backwards, backwardsEdge
      ensures 0 < length <= STATES
      ensures Trail(q, Labelling(), backwards[..length])
      ensures backwards[0] == end && backwards[length - 1] == q.start
      ensures BackEdges(Labelling(), backwards[..length], backwardsEdge[..length])
    {
      hide Parents, Settled, Starts, ValidQuery, Trail;
      ghost var l := Labelling();
      QueryBounds(q);
      var cur, curEdge := end, 0;
      length := 0;
      TrailStarts(q, l, end);
      assert backwards[..0] + [cur] == [cur];
      while cur != q.start && cur != NO_PARENT
        invariant IsState(cur) && (cur == q.start || Reached(q, l, cur))
        invariant length + IndexOf(order, cur) <= |order|
        invariant Trail(q, l, backwards[..length] + [cur])
        invariant (backwards[..length] + [cur])[0] == end
        invariant BackEdges(l, backwards[..length] + [cur], backwardsEdge[..length] + [curEdge])
        decreases IndexOf(order, cur)
      {
        ParentEarlier(q, l, order, cur);
        length := Record(cur, curEdge, length, backwards, backwardsEdge);
        curEdge := parentEdge[cur];
        cur := parent[cur];
        TrailExtends(q, l, backwards[..length], backwardsEdge[..length], cur);
      }
      length := Record(cur, curEdge, length, backwards, backwardsEdge);
    }

    /** One more state, and the edge taken from it. */
    static method Record(cur: int, curEdge: int, length: nat, backwards: array<int>, backwardsEdge: array<int>)
      returns (length2: nat)
      requires length < backwards.Length == backwardsEdge.Length && backwards != backwardsEdge
      modifies backwards, backwardsEdge
      ensures length2 == length + 1
      ensures backwards[..length2] == old(backwards[..length]) + [cur]
      ensures backwardsEdge[..length2] == old(backwardsEdge[..length]) + [curEdge]
    {
      backwards[length] := cur;
      backwardsEdge[length] := curEdge;
      length2 := length + 1;
    }

    /** Writes the route to `end` in forward order. */
    method Reconstruct(end: int, route: array<RouteNode>) returns (size: nat)
      requires Wired() && Labelled(q, Labelling(), order) && |order| < STATES
      requires end == q.start || Reached(q, Labelling(), end)
      requires route.Length >= STATES
      modifies route
      ensures 0 < size <= STATES
      ensures IsRoute(q, route[..size], end % TRACK_MAX)
      ensures RouteCost(q, route[..size], size - 1) == cost[end]
    {
      hide Parents, Settled, Starts, ValidQuery, IsPath, IsRoute, RouteCost, Connected, Trail, NodeOf;
      ghost var l := Labelling();
      var backwards := new int[STATES];
      var backwardsEdge := new int[STATES];
      size := WalkBack(end, backwards, backwardsEdge);
      ghost var t, edges := backwards[..size], backwardsEdge[..size];
      ghost var p := Reversed(t);
      TrailIsPath(q, l, t);
      PathIsRoute(q, l, order, p);
      for i := 0 to size
        invariant forall k :: 0 <= k < i ==> route[k] == NodeOf(q, l, p, k)
        invariant Labelling() == l && backwards[..size] == t && backwardsEdge[..size] == edges
      {
        var x := backwards[size - i - 1];
        TrailNode(q, l, t, edges, i);
        route[i] := RouteNode(x % TRACK_MAX, distance[x], backwardsEdge[size - i - 1],
                              i < size - 1 && backwards[size - i - 2] / TRACK_MAX == 1);
      }
      assert route[..size] == RouteOf(q, l, p);
    }
  }

  /** Searches for the goal and writes the route to it.  The result is no more than the
      cost of any walk to either goal node, with reversals or without; the route costs no
      more than the result. */
  method ShortestRoute(q: Query, route: array<RouteNode>) returns (result: int, forward: bool, size: nat)
    requires ValidQuery(q) && route.Length >= STATES
    modifies route
    ensures 0 <= result <= INT_MAX
    ensures forall steps, goal ::
      (goal == q.fwdGoal || goal == q.revGoal) && IsWalk(q, q.start, NO_PARENT, steps, goal) ==>
      result <= WalkCost(q, q.start, NO_PARENT, steps, goal)
    ensures result == INT_MAX ==> size == 0 && route[..] == old(route[..])
    ensures result < INT_MAX ==>
      && 0 < size <= STATES && IsRoute(q, route[..size], if forward then q.fwdGoal else q.revGoal)
      && RouteCost(q, route[..size], size - 1) <= result
  {
    hide Inv, Over, Ordered, Heap.Entries, IsRoute, RouteCost, Connected, Parents, Settled, Starts;
    var search := new Search(q);
    search.Initialize();
    search.Explore();
    ghost var l, order, queue := search.Labelling(), search.order, search.Queued();
    OverLabelled(q, l, order, queue);
    NoneCheaper(q, l, order, queue);
    forward := search.cost[q.fwdGoal] < search.cost[q.revGoal];
    var goal := if forward then q.fwdGoal else q.revGoal;
    result, size := search.cost[goal], 0;
    if result < INT_MAX {
      var end := if search.cost[goal] <= search.cost[goal + TRACK_MAX] then goal else goal + TRACK_MAX;
      StartCosts(q, l);
      size := search.Reconstruct(end, route);
    }
  }

  /** The edge has been relaxed, and the reversal on it. */
  lemma EdgeRelaxed(q: Query, l: Labels, l2: Labels, u: int, e: int)
    requires Shaped(q, l) && Shaped(q, l2) && MayTake(q, l, u, e)
    requires l2.cost[u] == l.cost[u] && l2.parent[u] == l.parent[u]
    requires var n := u % TRACK_MAX;
      var v := Dest(q.track, n, e);
      && 0 <= v < TRACK_MAX && l2.cost[v] <= l.cost[u] + StepCost(q, n, e, false)
      && (u < TRACK_MAX && Reversible(q, u, e) && 0 <= q.track[v].reverse < TRACK_MAX ==>
            l2.cost[q.track[v].reverse + TRACK_MAX] <= l.cost[u] + StepCost(q, n, e, true))
    ensures MayTake(q, l2, u, e) && EdgeExpanded(q, l2, u, e)
  {
    hide WellFormed, StepCost;
  }

  /** Edge 0 has been relaxed, and then edge 1. */
  lemma BothExpanded(q: Query, l: Labels, l2: Labels, u: int)
    requires Shaped(q, l) && Shaped(q, l2) && IsState(u)
    requires MayTake(q, l, u, 0) ==> EdgeExpanded(q, l, u, 0)
    requires MayTake(q, l2, u, 1) ==> EdgeExpanded(q, l2, u, 1)
    requires l2.cost[u] == l.cost[u] && l2.parent[u] == l.parent[u]
    requires forall y :: 0 <= y < STATES ==> l2.cost[y] <= l.cost[y]
    ensures Expanded(q, l2, u)
  {
    hide WellFormed, StepCost;
    QueryBounds(q);
    if MayTake(q, l2, u, 0) {
      EdgeStays(q, l, l2, u, 0);
    }
  }

  lemma OverLabelled(q: Query, l: Labels, order: seq<int>, queue: multiset<Entry>)
    requires Over(q, l, order, queue)
    ensures Labelled(q, l, order) && |order| < STATES
  {
    OrderBounded(q, l, order);
  }

  lemma StartCosts(q: Query, l: Labels)
    requires Shaped(q, l) && Starts(q, l)
    ensures 0 <= q.start < TRACK_MAX && l.cost[q.start] == 0 && l.cost[q.start + TRACK_MAX] == 0
  {
  }

  lemma NoneCheaper(q: Query, l: Labels, order: seq<int>, queue: multiset<Entry>)
    requires Over(q, l, order, queue)
    ensures Shaped(q, l)
    ensures forall steps, goal ::
      (goal == q.fwdGoal || goal == q.revGoal) && IsWalk(q, q.start, NO_PARENT, steps, goal) ==>
      Found(q, l) <= WalkCost(q, q.start, NO_PARENT, steps, goal)
  {
    forall steps, goal | (goal == q.fwdGoal || goal == q.revGoal) && IsWalk(q, q.start, NO_PARENT, steps, goal)
      ensures Found(q, l) <= WalkCost(q, q.start, NO_PARENT, steps, goal)
    {
      NoCheaperWalk(q, l, order, queue, q.start, NO_PARENT, steps, goal);
    }
  }

  ghost predicate Labelled(q: Query, l: Labels, order: seq<int>) {
    Shaped(q, l) && Starts(q, l) && Parents(q, l, order) && Settled(q, l, order)
  }

  /** A path of search states in the opposite direction, as far as it has been walked. */
  ghost predicate Trail(q: Query, l: Labels, t: seq<int>)
    requires Shaped(q, l)
  {
    && t != [] && AreStates(t)
    && forall i :: 0 <= i < |t| - 1 ==> BackLink(q, l, t, i)
  }

  ghost predicate BackLink(q: Query, l: Labels, t: seq<int>, i: int)
    requires Shaped(q, l) && 0 <= i < |t| - 1
  {
    Reached(q, l, t[i]) && l.parent[t[i]] == t[i + 1]
  }

  /** Beside each state of a trail is the edge by which the state before it was reached. */
  ghost predicate BackEdges(l: Labels, t: seq<int>, edges: seq<int>) {
    && |edges| == |t| && |l.edge| == STATES && AreStates(t)
    && forall k :: 0 <= k < |t| ==> edges[k] == if k == 0 then 0 else l.edge[t[k - 1]]
  }

  lemma TrailStarts(q: Query, l: Labels, end: int)
    requires Shaped(q, l) && IsState(end)
    ensures Trail(q, l, [end]) && BackEdges(l, [end], [0])
  {
  }

  lemma TrailExtends(q: Query, l: Labels, t: seq<int>, edges: seq<int>, x: int)
    requires Shaped(q, l) && Trail(q, l, t) && BackEdges(l, t, edges) && IsState(x)
    requires Reached(q, l, t[|t| - 1]) && l.parent[t[|t| - 1]] == x
    ensures Trail(q, l, t + [x]) && BackEdges(l, t + [x], edges + [l.edge[t[|t| - 1]]])
  {
    var t2 := t + [x];
    forall i | 0 <= i < |t2| - 1
      ensures BackLink(q, l, t2, i)
    {
      assert i == |t| - 1 || BackLink(q, l, t, i);
    }
  }

  /** What the reversing loop reads at position i is the route node of the path. */
  lemma TrailNode(q: Query, l: Labels, t: seq<int>, edges: seq<int>, i: nat)
    requires Shaped(q, l) && BackEdges(l, t, edges) && i < |t|
    ensures var x := t[|t| - i - 1];
      && 0 <= x < STATES && (i < |t| - 1 ==> 0 <= t[|t| - i - 2] < STATES) && AreStates(Reversed(t))
      && NodeOf(q, l, Reversed(t), i) ==
        RouteNode(x % TRACK_MAX, l.dist[x], edges[|t| - i - 1], i < |t| - 1 && t[|t| - i - 2] / TRACK_MAX == 1)
  {
    var p := Reversed(t);
    assert p[i] == t[|t| - 1 - i];
    if i + 1 < |t| {
      assert p[i + 1] == t[|t| - 2 - i];
    }
  }

  ghost function Reversed(t: seq<int>): (p: seq<int>) {
    seq(|t|, i requires 0 <= i < |t| => t[|t| - 1 - i])
  }

  lemma TrailIsPath(q: Query, l: Labels, t: seq<int>)
    requires Shaped(q, l) && Trail(q, l, t) && t[|t| - 1] == q.start
    ensures IsPath(q, l, Reversed(t))
    ensures Reversed(t)[|t| - 1] == t[0]
  {
    var p := Reversed(t);
    forall i | 0 <= i < |p| - 1
      ensures LinkAt(q, l, p, i)
    {
      assert BackLink(q, l, t, |t| - 2 - i);
    }
  }

  lemma EntryBounds(q: Query, l: Labels, order: seq<int>, queue: multiset<Entry>, en: Entry)
    requires Inv(q, l, order, queue, |order|) && en in queue
    ensures IsState(en.0) && 0 <= en.1
  {
    assert EntryOk(q, l, order, queue, en);
  }

  lemma EmptyIsOver(q: Query, l: Labels, order: seq<int>, queue: multiset<Entry>, heap: Heap)
    requires heap.Valid() && heap.size == 0 && queue == heap.Bag()
    requires Inv(q, l, order, queue, |order|)
    ensures Over(q, l, order, queue)
  {
    assert heap.Entries() == [];
  }

  lemma GoalIsOver(q: Query, l: Labels, order: seq<int>, queue: multiset<Entry>)
    requires order != [] && Inv(q, l, order, queue, |order| - 1)
    requires order[|order| - 1] == q.fwdGoal || order[|order| - 1] == q.revGoal
    ensures Over(q, l, order, queue)
  {
  }

  lemma SettledBounded(q: Query, l: Labels, order: seq<int>, queue: multiset<Entry>, k: int)
    requires Inv(q, l, order, queue, k)
    ensures |order| < STATES
  {
    OrderBounded(q, l, order);
  }

  lemma InvShaped(q: Query, l: Labels, order: seq<int>, queue: multiset<Entry>, k: int)
    requires Inv(q, l, order, queue, k)
    ensures Shaped(q, l)
  {
  }

  lemma StepSplits(q: Query, u: int, e: int)
    requires 0 <= u < |q.conflict| && 0 <= u < |q.track|
    ensures var penalty := if Conflict(q, u, e) then q.reservedCost else 0;
      && StepCost(q, u, e, false) == Dist(q.track, u, e) + penalty
      && StepCost(q, u, e, true) == q.reverseCost + penalty
  {
  }

  /** The edge's ends are nodes, and its costs do not overflow by themselves. */
  lemma EdgeBounds(q: Query, l: Labels, order: seq<int>, queue: multiset<Entry>, u: int, e: int)
    requires |q.track| == TRACK_MAX && |l.parent| == STATES
    requires order != [] && Inv(q, l, order, queue, |order| - 1) && MayTake(q, l, u, e)
    ensures Shaped(q, l) && 0 <= u < STATES
    ensures 0 <= u % TRACK_MAX < |q.track| == |q.conflict| == |q.reversible| == TRACK_MAX
    ensures var n := u % TRACK_MAX;
      var v := Dest(q.track, n, e);
      && 0 <= Dist(q.track, n, e) && 0 <= q.reservedCost && 0 <= q.reverseCost
      && Dist(q.track, n, e) + q.reservedCost <= INT_MAX && q.reverseCost + q.reservedCost <= INT_MAX
      && 0 <= v < TRACK_MAX && 0 <= q.track[v].reverse < TRACK_MAX
      && IsMove(q, l, u, e, v)
      && (u < TRACK_MAX && Reversible(q, u, e) ==> IsMove(q, l, u, e, q.track[v].reverse + TRACK_MAX))
  {
    hide Parents, Queue, Settled, AllExpanded;
    var n := u % TRACK_MAX;
    assert EdgeOk(q.track, n, e) && ReverseOk(q.track, Dest(q.track, n, e));
  }

  lemma NodeBounds(q: Query, l: Labels, order: seq<int>, queue: multiset<Entry>)
    requires order != [] && Inv(q, l, order, queue, |order| - 1)
    ensures Shaped(q, l)
    ensures var u := order[|order| - 1];
      var n := u % TRACK_MAX;
      && 0 <= u < STATES && |q.track| == TRACK_MAX && IsNode(q.track, n)
      && (!q.track[n].kind.Exit? ==> IsNode(q.track, q.track[n].ahead.dest))
      && (q.track[n].kind.Branch? ==> IsNode(q.track, q.track[n].curved.dest))
  {
    hide Parents, Queue, AllExpanded;
    var n := order[|order| - 1] % TRACK_MAX;
    assert EdgeOk(q.track, n, 0) && EdgeOk(q.track, n, 1);
  }
}
