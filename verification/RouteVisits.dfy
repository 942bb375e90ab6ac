/** What becomes of a train's route and of its track when the server handles a message, told
    from the visit as a whole. */
module RouteVisits {
  import opened Track
  import opened RouteSearch
  import opened Reservations
  import opened Releases
  import opened Detours
  import opened RouteServers
  import opened RouteReach

  // ---------- Routes that a train can go ----------

  /** The distances on the route are exact, and it goes past no exit. */
  ghost predicate Travels(track: seq<Node>, r: Route) {
    && AreLegs(track, r.primary) && Measured(track, r.primary)
    && forall i :: 0 <= i < |r.primary| - 1 ==> !track[r.primary[i].at.node].kind.Exit?
  }

  lemma SamePlaces(r: Route, r2: Route)
    requires SameLegs(r, r2)
    ensures |r2.primary| == |r.primary|
    ensures forall i :: 0 <= i < |r.primary| ==> r2.primary[i] == r.primary[i].(reserved := r2.primary[i].reserved)
  {
    SameSizes(r, r2);
    forall i | 0 <= i < |r.primary|
      ensures r2.primary[i] == r.primary[i].(reserved := r2.primary[i].reserved)
    {
      assert HasLeg(r, PRIMARY, i) && LegAt(r, PRIMARY, i) == r.primary[i] && LegAt(r2, PRIMARY, i) == r2.primary[i];
    }
  }

  lemma SameTravels(track: seq<Node>, r: Route, r2: Route)
    requires SameLegs(r, r2) && Travels(track, r)
    ensures Travels(track, r2)
  {
    hide SameLegs, IsSegment;
    SamePlaces(r, r2);
    assert forall i :: 0 <= i < |r.primary| ==> SegmentOf(r2.primary[i]) == SegmentOf(r.primary[i]);
  }

  lemma AnswerTravels(track: seq<Node>, table: Table, t: int, start: int, env: Readings, before: Route, after: Route)
    requires Answered(track, table, t, start, env, before, after) && Travels(track, before)
    ensures Travels(track, after)
  {
    hide AreConflicts, IsRoute, Travels, PlannedUpTo, IsWalk, Connected, WellFormed;
    var q, length, forward :| IsAnswer(track, table, t, start, env, before, after, q, length, forward);
    if length != INT_MAX {
      var end := if forward then env.fwdGoal else env.revGoal;
      PlannedTravels(track, env.switches, q, NodesOf(after.primary), end, after);
    }
  }

  lemma PlannedTravels(track: seq<Node>, switches: seq<SwitchReading>, q: Query, r: seq<RouteNode>, goal: int,
                       route: Route)
    requires |switches| == |track| && AreSegments(track, r) && PlannedUpTo(track, switches, r, route, |r|)
    requires ValidQuery(q) && q.track == track && IsRoute(q, r, goal)
    ensures Travels(track, route)
  {
    hide WellFormed, PlannedUpTo, IsRoute, AreSegments;
    PlannedMeasured(track, switches, q, r, goal, route);
  }

  lemma EffectTravels(track: seq<Node>, m: Message, env: Readings, t: int, table: Table, r: Route, table2: Table,
                      r2: Route, ok: bool)
    requires TrackOk(track) && Proper(track, m, env) && 0 <= t < |table| == |table2|
    requires Effect(track, m, env, t, table, r, table2, r2, ok) && Travels(track, r)
    ensures Travels(track, r2)
  {
    hide WellFormed, Travels, Answered, AroundSensor, AroundPosition, OnlyOnRoute, GivenUp, Proper, SameLegs;
    if m.RouteRequest? && !Unroutable(track, m) {
      var planned :|
        && Answered(track, table, t, m.pos1.node, env, r, planned)
        && (ok ==> Advanced(track, table, t, planned, r2, table2[t], m.pos1.node, -m.pos1.offset, m.requested))
        && (!ok ==> planned.primary == [] && r2 == planned && table2 == table);
      AnswerTravels(track, table, t, m.pos1.node, env, r, planned);
      if ok { SameTravels(track, planned, r2); }
    } else if SameLegs(r, r2) {
      SameTravels(track, r, r2);
    }
  }

  lemma VisitTravels(track: seq<Node>, v: Visit, m: Message, env: Readings)
    requires TrackOk(track) && Proper(track, m, env) && IsVisit(track, v, m, env)
    requires forall u :: 0 <= u < MAX_TRAINS ==> Travels(track, v.before.routes[u])
    ensures Full(v.after)
    ensures forall u :: 0 <= u < MAX_TRAINS ==> Travels(track, v.midRoutes[u]) && Travels(track, v.after.routes[u])
  {
    hide WellFormed, Travels, Effect, Advanced, Proper, SameLegs;
    if v.t >= 0 {
      EffectTravels(track, m, env, v.t, v.before.table, v.before.routes[v.t], v.mid, v.midRoutes[v.t], v.ok);
    }
    forall u | 0 <= u < MAX_TRAINS
      ensures Travels(track, v.midRoutes[u]) && Travels(track, v.after.routes[u])
    {
      if v.ok && v.midRoutes[u] != v.after.routes[u] {
        var between :| GivenIn(track, between, v.mid, v.after.table, u, v.midRoutes[u], v.after.routes[u],
                               v.after.places[u], v.after.wanted[u]);
        AdvancedLegs(track, between, u, v.midRoutes[u], v.after.routes[u], v.after.table[u], v.after.places[u].node,
                     -v.after.places[u].offset, v.after.wanted[u]);
        SameTravels(track, v.midRoutes[u], v.after.routes[u]);
      }
    }
  }

  lemma AdvancedLegs(track: seq<Node>, table: Table, t: int, r: Route, r2: Route, c: set<Segment>, node: int,
                     dist: int, wanted: int)
    requires Advanced(track, table, t, r, r2, c, node, dist, wanted)
    ensures SameLegs(r, r2)
  {
  }

  /** However long the server runs, every route it keeps is one that a train can go. */
  lemma {:induction false} RoutesTravel(track: seq<Node>, messages: seq<(Message, Readings)>, log: seq<Visit>,
                                        first: Snapshot, last: Snapshot)
    requires TrackOk(track) && forall i :: 0 <= i < |messages| ==> Proper(track, messages[i].0, messages[i].1)
    requires Blank(first) && IsLog(track, messages, log, first, last)
    ensures Full(last) && forall u :: 0 <= u < MAX_TRAINS ==> Travels(track, last.routes[u])
    decreases |log|
  {
    hide WellFormed, IsVisit, Proper;
    if log != [] {
      var k := |log| - 1;
      RoutesTravel(track, messages, log[..k], first, log[k].before);
      VisitTravels(track, log[k], messages[k].0, messages[k].1);
    }
  }

  // ---------- Going on ----------

  /** A train that asks to go on is given exactly the legs that begin within what it asks for
      ahead of where it says it is, and that it can get to. */
  lemma RequestGives(track: seq<Node>, v: Visit, m: Message, env: Readings, start: nat, k: nat)
    requires TrackOk(track) && Proper(track, m, env) && IsVisit(track, v, m, env)
    requires m.ReservationRequest? && v.t >= 0 && v.ok && Travels(track, v.before.routes[v.t])
    requires StartsAt(v.before.routes[v.t].primary, m.pos.node, start) && k < |v.before.routes[v.t].primary|
    ensures
      var legs, legs2 := v.before.routes[v.t].primary, v.midRoutes[v.t].primary;
      var leg := legs[k];
      var ahead := leg.at.distance - legs[start].at.distance - m.pos.offset;
      && |legs2| == |legs|
      && if k >= start && ahead < m.requested && ClearTo(track, v.before.table, v.t, legs, start, k)
            && leg.reserved < LengthOf(track, leg) then
           legs2[k] == leg.(reserved := LengthOf(track, leg)) && SegmentOf(leg) in v.mid[v.t]
         else
           legs2[k] == leg
  {
    hide WellFormed, Advanced, OnlyGiven, Proper, ClearTo, IsSegment, StartsAt;
    WantedIsGiven(track, v.before.table, v.t, v.before.routes[v.t], v.midRoutes[v.t], v.mid[v.t], m.pos.node,
                  -m.pos.offset, m.requested, start, k);
  }

  /** After any message, a train that wants to go on has every leg that begins within what it
      wants ahead of where it is, unless it has to reverse first or another train is in its way. */
  lemma WishersHave(track: seq<Node>, v: Visit, m: Message, env: Readings, u: int, start: nat, k: nat)
    requires TrackOk(track) && Proper(track, m, env) && IsVisit(track, v, m, env) && v.ok
    requires 0 <= u < v.after.numTrains && u < MAX_TRAINS && v.after.wanted[u] > 0
    requires Travels(track, v.midRoutes[u]) && k < |v.midRoutes[u].primary|
    requires StartsAt(v.midRoutes[u].primary, v.after.places[u].node, start)
    requires
      var legs := v.midRoutes[u].primary;
      && legs[k].at.distance - legs[start].at.distance - v.after.places[u].offset < v.after.wanted[u]
      && ClearTo(track, v.after.table, u, legs, start, k)
    ensures
      var legs := v.after.routes[u].primary;
      && |legs| == |v.midRoutes[u].primary| && legs[k].at == v.midRoutes[u].primary[k].at
      && 0 <= legs[k].at.node < |track| && legs[k].reserved >= LengthOf(track, legs[k])
  {
    hide WellFormed, Advanced, Effect, Proper, ClearTo, IsSegment, StartsAt;
    var between :| GivenIn(track, between, v.mid, v.after.table, u, v.midRoutes[u], v.after.routes[u],
                           v.after.places[u], v.after.wanted[u]);
    ClearEarlier(track, between, v.after.table, u, v.midRoutes[u].primary, start, k);
    LegHere(track, v.midRoutes[u].primary, k);
    WantedIsGiven(track, between, u, v.midRoutes[u], v.after.routes[u], v.after.table[u], v.after.places[u].node,
                  -v.after.places[u].offset, v.after.wanted[u], start, k);
  }

  /** What is clear when others hold more was clear before. */
  lemma ClearEarlier(track: seq<Node>, table: Table, table2: Table, t: int, legs: seq<Leg>, start: nat, k: nat)
    requires |table| == |table2| && forall u :: 0 <= u < |table| ==> table[u] <= table2[u]
    requires AreLegs(track, legs) && ClearTo(track, table2, t, legs, start, k)
    ensures ClearTo(track, table, t, legs, start, k) && start <= k < |legs|
  {
    hide Shares, IsSegment;
  }

  lemma LegHere(track: seq<Node>, legs: seq<Leg>, k: nat)
    requires AreLegs(track, legs) && k < |legs|
    ensures 0 <= legs[k].at.node < |track|
  {
  }

  // ---------- Passing ----------

  /** A train that reports a sensor holds only track on its route, counts on nothing up to
      that sensor and holds none of it, and keeps what lies ahead: the legs as they are, and
      the track that is not passed, on the route or on a detour from what was passed. */
  lemma ReleaseDrops(track: seq<Node>, v: Visit, m: Message, env: Readings, n: nat)
    requires TrackOk(track) && Proper(track, m, env) && IsVisit(track, v, m, env) && m.FreeReservation? && v.t >= 0
    requires var legs := v.before.routes[v.t].primary;
      && n <= |legs| && (forall j :: 0 <= j < n ==> legs[j].at.node != m.sensor)
      && (n < |legs| ==> legs[n].at.node == m.sensor)
    ensures
      var r, c, r2, c2 := v.before.routes[v.t], v.before.table[v.t], v.midRoutes[v.t], v.mid[v.t];
      && c2 <= c && |r2.primary| == |r.primary|
      && (forall s :: s in c2 ==> OnRoute(r, s))
      && (forall j :: 0 <= j < n ==> r2.primary[j].reserved <= 0 && SegmentOf(r.primary[j]) !in c2)
      && (forall j :: n <= j < |r.primary| ==> r2.primary[j] == r.primary[j])
      && (forall s :: s in c && OnRoute(r, s) && NotPassed(r, n, s) ==> s in c2)
  {
    hide WellFormed, OnlyGiven, Proper, GivenUp, OnRoute, NotPassed, ReleasedTo;
    var r, r2 := v.before.routes[v.t], v.midRoutes[v.t];
    var c := OnlyOnRoute(r, v.before.table[v.t]);
    assert FirstAt(r.primary, m.sensor) == n;
    forall j | 0 <= j < |r.primary|
      ensures |r2.primary| == |r.primary|
      ensures j < n ==> r2.primary[j].reserved <= 0 && SegmentOf(r.primary[j]) !in v.mid[v.t]
      ensures j >= n ==> r2.primary[j] == r.primary[j]
    {
      PassedIsReleased(r, c, n, r2, j);
    }
    ReleasedSizes(r, c, n, r2);
    forall s | s in c && NotPassed(r, n, s)
      ensures s in v.mid[v.t]
    {
      StaysHeld(r, c, n, s);
    }
  }

  /** The segment is on none of the first n legs and on no detour from one of them. */
  ghost predicate NotPassed(r: Route, n: nat, s: Segment)
    requires n <= |r.primary|
  {
    && (forall i :: 0 <= i < n ==> SegmentOf(r.primary[i]) != s)
    && (forall i, j :: 0 <= i < n && HasLeg(r, r.primary[i].detour, j) && r.primary[i].detour >= 0 ==>
          SegmentOf(LegAt(r, r.primary[i].detour, j)) != s)
  }

  lemma StaysHeld(r: Route, c: set<Segment>, n: nat, s: Segment)
    requires n <= |r.primary| && s in c && NotPassed(r, n, s)
    ensures s in c - GivenUp(r, c, n)
  {
    hide GivenUp;
    AheadIsKept(r, c, n, s);
  }

  lemma ReleasedSizes(r: Route, c: set<Segment>, n: nat, r2: Route)
    requires ReleasedTo(r, c, n, r2)
    ensures |r2.primary| == |r.primary|
  {
    SameSizes(r, r2);
  }

  // ---------- By hand, and for nothing ----------

  /** Debugging takes a segment for train 9000 unless another train holds it or its mirror, and
      takes one away from train 9000; routes stay as they are.  A request for a route from
      nowhere, or to nowhere, changes nothing. */
  lemma ByHand(track: seq<Node>, v: Visit, m: Message, env: Readings)
    requires TrackOk(track) && Proper(track, m, env) && IsVisit(track, v, m, env) && v.t >= 0
    requires m.DebugReserve? || m.DebugFree? || (m.RouteRequest? && Unroutable(track, m))
    ensures v.ok && v.midRoutes == v.before.routes && v.after.numbers[v.t] == if m.RouteRequest? then m.train else 9000
    ensures
      var c, c2 := v.before.table[v.t], v.mid[v.t];
      match m
      case DebugReserve(node, edge) =>
        var taken :=
          exists u, b: Segment ::
            && 0 <= u < MAX_TRAINS && u != v.t && b in v.before.table[u]
            && (b == (node, edge) || IsMirror(track, node, edge, b.0, b.1));
        c2 == if taken then c else c + {(node, edge)}
      case DebugFree(node, edge) => c2 == c - {(node, edge)}
      case _ => c2 == c
  {
    hide WellFormed, OnlyGiven, Proper, IsMirror;
  }

  // ---------- A new route ----------

  /** Two queries that differ only in what they say of edges that are not there. */
  ghost predicate SameQuery(q: Query, q2: Query) {
    && ValidQuery(q) && ValidQuery(q2) && q2.track == q.track && q2.start == q.start
    && q2.reverseCost == q.reverseCost && q2.reservedCost == q.reservedCost && q2.reversible == q.reversible
    && forall u, e :: HasEdge(q.track, u, e) ==> Conflict(q2, u, e) == Conflict(q, u, e)
  }

  lemma {:induction false} SameWalk(q: Query, q2: Query, u: int, from: int, steps: seq<Step>, goal: int)
    requires SameQuery(q, q2) && IsWalk(q, u, from, steps, goal)
    ensures IsWalk(q2, u, from, steps, goal) && WalkCost(q2, u, from, steps, goal) == WalkCost(q, u, from, steps, goal)
    decreases |steps|
  {
    hide WellFormed;
    if steps != [] {
      var e := steps[0].edge;
      if steps[0].back {
        SameWalk(q, q2, Behind(q, u, e), u, steps[1..], goal);
      } else {
        SameWalk(q, q2, Dest(q.track, u, e), NO_PARENT, steps[1..], goal);
      }
    }
  }

  lemma SameConnected(q: Query, q2: Query, r: seq<RouteNode>)
    requires SameQuery(q, q2) && Connected(q, r)
    ensures Connected(q2, r)
  {
    hide WellFormed;
    forall i | 0 <= i < |r| - 1
      ensures StepOk(q2, r, i)
    {
      assert StepOk(q, r, i);
    }
  }

  lemma SameRoute(q: Query, q2: Query, r: seq<RouteNode>, goal: int)
    requires SameQuery(q, q2) && IsRoute(q, r, goal)
    ensures IsRoute(q2, r, goal)
  {
    hide WellFormed, Connected, StepOk;
    SameConnected(q, q2, r);
    forall i | 0 <= i < |r| - 2 && r[i].reverseHere
      ensures Retraces(q2, r[i], r[i + 1])
    {
      assert Retraces(q, r[i], r[i + 1]);
    }
  }

  lemma {:induction false} SameRouteCost(q: Query, q2: Query, r: seq<RouteNode>, n: nat)
    requires SameQuery(q, q2) && n < |r| && Connected(q, r) && Connected(q2, r)
    ensures RouteCost(q2, r, n) == RouteCost(q, r, n)
  {
    hide WellFormed;
    if n > 0 {
      assert StepOk(q, r, n - 1);
      SameRouteCost(q, q2, r, n - 1);
    }
  }

  lemma ConflictsSame(q: Query, q2: Query, table: Table, t: int)
    requires ValidQuery(q) && ValidQuery(q2) && q2 == q.(conflict := q2.conflict)
    requires AreConflicts(q.track, table, t, q.conflict) && AreConflicts(q.track, table, t, q2.conflict)
    ensures SameQuery(q, q2)
  {
    hide Free;
    forall u, e | HasEdge(q.track, u, e)
      ensures Conflict(q2, u, e) == Conflict(q, u, e)
    {
      assert ConflictsAt(q.track, table, t, u, q.conflict[u]) && ConflictsAt(q.track, table, t, u, q2.conflict[u]);
    }
  }

  /** A train that asks for a route, where there is a way for it: its new route leads from
      where it is to the goal, on one side or the other, and costs no more than that way, 400
      being paid for each reversal and 18000 for each step where another train is. */
  lemma RouteIsFound(track: seq<Node>, v: Visit, m: Message, env: Readings, q: Query, steps: seq<Step>, goal: int)
    requires TrackOk(track) && Proper(track, m, env) && IsVisit(track, v, m, env) && v.t >= 0
    requires m.RouteRequest? && IsNode(track, m.pos1.node) && m.pos1.offset >= 0 && m.goal >= 0
    requires ValidQuery(q) && AreConflicts(track, v.before.table, v.t, q.conflict)
    requires q == Query(track, m.pos1.node, env.fwdGoal, env.revGoal, 400, 18_000, q.conflict, env.reversible)
    requires (goal == env.fwdGoal || goal == env.revGoal) && IsWalk(q, m.pos1.node, NO_PARENT, steps, goal)
    requires WalkCost(q, m.pos1.node, NO_PARENT, steps, goal) < INT_MAX
    ensures
      var r := NodesOf(v.midRoutes[v.t].primary);
      && v.ok && r != [] && (IsRoute(q, r, env.fwdGoal) || IsRoute(q, r, env.revGoal))
      && RouteCost(q, r, |r| - 1) <= WalkCost(q, m.pos1.node, NO_PARENT, steps, goal)
  {
    hide WellFormed, AreConflicts, IsRoute, IsWalk, Connected, AreSegments, PlannedUpTo, OnlyGiven, Proper, ValidQuery,
      SameQuery, Advanced;
    var t, r, r2 := v.t, v.before.routes[v.t], v.midRoutes[v.t];
    var planned :|
      && Answered(track, v.before.table, t, m.pos1.node, env, r, planned)
      && (v.ok ==>
            Advanced(track, v.before.table, t, planned, r2, v.mid[t], m.pos1.node, -m.pos1.offset, m.requested))
      && (!v.ok ==> planned.primary == [] && r2 == planned && v.mid == v.before.table);
    AnswerLeads(track, v.before.table, t, m.pos1.node, env, r, planned, q, steps, goal);
    if v.ok {
      AdvancedLegs(track, v.before.table, t, planned, r2, v.mid[t], m.pos1.node, -m.pos1.offset, m.requested);
      SamePlaces(planned, r2);
      assert NodesOf(r2.primary) == NodesOf(planned.primary);
    }
  }

  lemma AnswerLeads(track: seq<Node>, table: Table, t: int, start: int, env: Readings, before: Route, after: Route,
                    q: Query, steps: seq<Step>, goal: int)
    requires Answered(track, table, t, start, env, before, after)
    requires ValidQuery(q) && AreConflicts(track, table, t, q.conflict)
    requires q == Query(track, start, env.fwdGoal, env.revGoal, 400, 18_000, q.conflict, env.reversible)
    requires (goal == env.fwdGoal || goal == env.revGoal) && IsWalk(q, start, NO_PARENT, steps, goal)
    requires WalkCost(q, start, NO_PARENT, steps, goal) < INT_MAX
    ensures
      var r := NodesOf(after.primary);
      && r != [] && (IsRoute(q, r, env.fwdGoal) || IsRoute(q, r, env.revGoal)) && Connected(q, r)
      && RouteCost(q, r, |r| - 1) <= WalkCost(q, start, NO_PARENT, steps, goal)
  {
    hide WellFormed, AreConflicts, IsWalk, Connected, AreSegments, PlannedUpTo, ValidQuery, SameQuery, Retraces,
      NodesOf;
    var q2, length, forward :| IsAnswer(track, table, t, start, env, before, after, q2, length, forward);
    ConflictsSame(q, q2, table, t);
    ConflictsSame(q2, q, table, t);
    SameWalk(q, q2, start, NO_PARENT, steps, goal);
    var r := NodesOf(after.primary);
    var end := if forward then env.fwdGoal else env.revGoal;
    SameRoute(q2, q, r, end);
    SameRouteCost(q2, q, r, |r| - 1);
  }
}
