/** A track with a passing loop, on which a train loses what its route counts on: the detour
    from the branch comes back to the route at the merge. */
module PassingLoop {
  import opened Track
  import opened RouteSearch
  import opened Reservations
  import opened Releases
  import opened Detours
  import opened RouteServers

  /** From the enter node 0 to the branch 2; straight on by the sensor 4, or by the curve, to
      the merge 6 and the exit 8.  The odd nodes are the other direction. */
  function LoopTrack(): (track: seq<Node>)
    ensures |track| == TRACK_MAX
  {
    var none := Edge(0, 0);
    [Node(Enter, 1, Edge(2, 100), none), Node(Exit, 0, none, none),
     Node(Branch, 3, Edge(4, 100), Edge(6, 300)), Node(Merge, 2, Edge(1, 100), none),
     Node(Sensor, 5, Edge(6, 100), none), Node(Sensor, 4, Edge(3, 100), none),
     Node(Merge, 7, Edge(8, 100), none), Node(Branch, 6, Edge(5, 100), Edge(3, 300)),
     Node(Exit, 9, none, none), Node(Enter, 8, Edge(7, 100), none)]
    + seq(TRACK_MAX - 10, _ => Node(NoNode, 0, none, none))
  }

  lemma LoopNodes(u: int)
    ensures 10 <= u < TRACK_MAX ==> LoopTrack()[u].kind.NoNode?
  {
  }

  lemma LoopTrackOk()
    ensures TrackOk(LoopTrack())
  {
    var track := LoopTrack();
    forall u | 0 <= u < TRACK_MAX
      ensures ReverseOk(track, u) && EdgeOk(track, u, 0) && EdgeOk(track, u, 1)
    {
      LoopNodes(u);
      if u < 10 {
        LoopEdges(u);
      }
    }
    forall u, e | HasEdge(track, u, e)
      ensures 0 < Dist(track, u, e) <= 300
    {
      LoopNodes(u);
    }
  }

  lemma LoopEdges(u: int)
    requires 0 <= u < 10
    ensures var track := LoopTrack(); EdgeOk(track, u, 0) && EdgeOk(track, u, 1)
  {
    var track := LoopTrack();
    assert IsMirror(track, 0, 0, 3, 0) && IsMirror(track, 3, 0, 0, 0);
    assert IsMirror(track, 2, 0, 5, 0) && IsMirror(track, 5, 0, 2, 0);
    assert IsMirror(track, 2, 1, 7, 1) && IsMirror(track, 7, 1, 2, 1);
    assert IsMirror(track, 4, 0, 7, 0) && IsMirror(track, 7, 0, 4, 0);
    assert IsMirror(track, 6, 0, 9, 0) && IsMirror(track, 9, 0, 6, 0);
  }

  /** The way straight on, from the branch to the exit. */
  const STRAIGHT_ON: seq<RouteNode> :=
    [RouteNode(2, 0, 0, false), RouteNode(4, 100, 0, false), RouteNode(6, 200, 0, false), RouteNode(8, 300, 0, false)]

  /** The track both ways share behind the merge. */
  const BEHIND_MERGE: Segment := (6, 0)

  // ---------- The search finds the way straight on ----------

  /** A node that is not on the way to the exit. */
  predicate Elsewhere(u: int) {
    0 <= u < TRACK_MAX && u != 2 && u != 4 && u != 6
  }

  /** The search from the branch to the exit, with nobody else on the track. */
  ghost predicate Asks(q: Query) {
    && ValidQuery(q) && q.track == LoopTrack() && q.start == 2 && q.fwdGoal == 8 && Elsewhere(q.revGoal)
    && q.reverseCost == REVERSE_COST && q.reservedCost == RESERVED_COST
    && forall u :: 0 <= u < TRACK_MAX && HasEdge(q.track, u, 0) ==> !q.conflict[u].0
  }

  const AHEAD := Step(0, false)

  lemma StraightOnCosts(q: Query)
    requires Asks(q)
    ensures
      var steps := [AHEAD, AHEAD, AHEAD];
      IsWalk(q, 2, NO_PARENT, steps, 8) && WalkCost(q, 2, NO_PARENT, steps, 8) == 300
  {
    var one, two, three := [AHEAD], [AHEAD, AHEAD], [AHEAD, AHEAD, AHEAD];
    assert three[1..] == two && two[1..] == one && one[1..] == [];
    assert IsWalk(q, 8, NO_PARENT, [], 8) && IsWalk(q, 6, NO_PARENT, one, 8) && IsWalk(q, 4, NO_PARENT, two, 8);
    assert WalkCost(q, 6, NO_PARENT, one, 8) == 100 && WalkCost(q, 4, NO_PARENT, two, 8) == 200;
  }

  /** A question on this track, with these edges in other trains' hands and these to reverse on. */
  ghost predicate OnTrack(q: Query) {
    ValidQuery(q) && q.track == LoopTrack() && q.reverseCost == REVERSE_COST && q.reservedCost == RESERVED_COST
  }

  /** From the other exit there is no way forward to the exit 8; but where a train may
      reverse behind node 7, it gets there, for the cost of the reversal and one edge. */
  lemma TurnsBack(q: Query)
    requires OnTrack(q) && q.reversible[9].0 && !q.conflict[6].0
    ensures
      var steps := [Step(0, true), AHEAD];
      IsWalk(q, 9, NO_PARENT, steps, 8) &&
      WalkCost(q, 9, NO_PARENT, steps, 8) == if q.conflict[9].0 then 500 + 18_000 else 500
  {
    var one, two := [AHEAD], [Step(0, true), AHEAD];
    assert two[1..] == one && one[1..] == [];
    assert IsWalk(q, 8, NO_PARENT, [], 8) && Behind(q, 9, 0) == 6 && MayTurn(q, 9, 0);
    assert IsWalk(q, 6, 9, one, 8) && WalkCost(q, 6, 9, one, 8) == 100;
  }

  /** By the curve, which another train holds or not, to the exit. */
  lemma CurveCosts(q: Query)
    requires OnTrack(q) && !q.conflict[6].0
    ensures
      var steps := [Step(1, false), AHEAD];
      IsWalk(q, 2, NO_PARENT, steps, 8) &&
      WalkCost(q, 2, NO_PARENT, steps, 8) == if q.conflict[2].1 then 400 + 18_000 else 400
  {
    var one, two := [AHEAD], [Step(1, false), AHEAD];
    assert two[1..] == one && one[1..] == [];
    assert IsWalk(q, 8, NO_PARENT, [], 8) && IsWalk(q, 6, NO_PARENT, one, 8);
    assert WalkCost(q, 6, NO_PARENT, one, 8) == 100;
  }

  /** One step of a route that costs no more than the way straight on. */
  lemma CheapStep(q: Query, r: seq<RouteNode>, i: nat)
    requires Asks(q) && Connected(q, r) && i + 1 < |r| && RouteCost(q, r, |r| - 1) <= 300
    ensures var u, e := r[i].node, r[i].edge;
      && HasEdge(LoopTrack(), u, e) && 0 <= u < 10 && !r[i].reverseHere
      && r[i + 1].node == Dest(LoopTrack(), u, e) && r[i + 1].distance == r[i].distance + Dist(LoopTrack(), u, e)
      && RouteCost(q, r, i) + Dist(LoopTrack(), u, e) <= RouteCost(q, r, i + 1) <= 300
  {
    hide ValidQuery, IsMirror, LoopTrack;
    assert StepOk(q, r, i);
    LoopEdge(r[i].node, r[i].edge);
    StepDear(q, r, i);
    CostRises(q, r, i + 1, |r| - 1);
    CostRises(q, r, 0, i);
  }

  lemma LoopEdge(u: int, e: int)
    requires HasEdge(LoopTrack(), u, e)
    ensures 0 <= u < 10 && 0 < Dist(LoopTrack(), u, e)
  {
    LoopNodes(u);
  }

  lemma StepDear(q: Query, r: seq<RouteNode>, i: nat)
    requires Asks(q) && Connected(q, r) && i + 1 < |r| && HasEdge(q.track, r[i].node, r[i].edge)
    ensures var step := if r[i].reverseHere then REVERSE_COST else Dist(q.track, r[i].node, r[i].edge);
      RouteCost(q, r, i) + step <= RouteCost(q, r, i + 1)
  {
    hide WellFormed;
    assert StepOk(q, r, i);
  }

  lemma {:induction false} CostRises(q: Query, r: seq<RouteNode>, i: nat, n: nat)
    requires Asks(q) && Connected(q, r) && i <= n < |r|
    ensures RouteCost(q, r, i) <= RouteCost(q, r, n)
    decreases n
  {
    hide WellFormed, LoopTrack;
    if i < n {
      CostRises(q, r, i, n - 1);
      assert StepOk(q, r, n - 1);
      LoopEdge(r[n - 1].node, r[n - 1].edge);
    }
  }

  /** Whatever route the search writes for this question, it is the way straight on. */
  lemma OnlyStraightOn(q: Query, r: seq<RouteNode>, goal: int)
    requires Asks(q) && Elsewhere(goal) && IsRoute(q, r, goal) && RouteCost(q, r, |r| - 1) <= 300
    ensures r == STRAIGHT_ON
  {
    hide ValidQuery, RouteCost, Connected, IsMirror;
    CheapStep(q, r, 0);
    if r[0].edge == 1 {
      CheapStep(q, r, 1);
    }
    CheapStep(q, r, 1);
    CheapStep(q, r, 2);
    if |r| > 4 {
      CheapStep(q, r, 3);
    }
  }

  // ---------- Its plan has a detour by the curve ----------

  /** The route straight on, with the detour d at the branch. */
  ghost predicate OnLoop(r: Route, d: int) {
    && |r.primary| == 4 && (forall i :: 0 <= i < 4 ==> r.primary[i].at == STRAIGHT_ON[i])
    && r.primary[0].detour == d && (forall i :: 1 <= i < 4 ==> r.primary[i].detour == PRIMARY)
    && 0 <= d < |r.detours| && |r.detours[d]| == 2
    && SegmentOf(r.detours[d][0]) == (2, 1) && SegmentOf(r.detours[d][1]) == BEHIND_MERGE
  }

  lemma StraightOnLengths()
    ensures AreSegments(LoopTrack(), STRAIGHT_ON)
    ensures DetourLength(LoopTrack(), STRAIGHT_ON, 0) == 300
    ensures forall i :: 1 <= i < 4 ==> DetourLength(LoopTrack(), STRAIGHT_ON, i) == -1
  {
    var track := LoopTrack();
    assert StopAfter(track, STRAIGHT_ON, 4) == 300 && StopAfter(track, STRAIGHT_ON, 3) == 300;
    assert StopAfter(track, STRAIGHT_ON, 2) == 300 && StopAfter(track, STRAIGHT_ON, 1) == 300;
  }

  lemma CurveDetour(switches: seq<SwitchReading>, legs: seq<Leg>)
    requires |switches| == TRACK_MAX && IsDetour(LoopTrack(), switches, legs, STRAIGHT_ON[0], 300)
    ensures |legs| == 2 && SegmentOf(legs[0]) == (2, 1) && SegmentOf(legs[1]) == BEHIND_MERGE
  {
    var track := LoopTrack();
    if |legs| > 1 {
      assert StepAt(track, switches, legs, 0);
    }
    if |legs| > 2 {
      NothingAfterMerge(switches, legs);
    }
  }

  lemma NothingAfterMerge(switches: seq<SwitchReading>, legs: seq<Leg>)
    requires |switches| == TRACK_MAX && |legs| > 2 && SegmentOf(legs[1]) == BEHIND_MERGE
    ensures !StepAt(LoopTrack(), switches, legs, 1)
  {
  }

  lemma PlannedOnLoop(switches: seq<SwitchReading>, r: Route)
    requires |switches| == TRACK_MAX && AreSegments(LoopTrack(), STRAIGHT_ON)
    requires PlannedUpTo(LoopTrack(), switches, STRAIGHT_ON, r, 4)
    ensures OnLoop(r, r.primary[0].detour)
  {
    hide IsDetour, LoopTrack;
    StraightOnLengths();
    assert PlannedAt(LoopTrack(), switches, STRAIGHT_ON, r, 0) && PlannedAt(LoopTrack(), switches, STRAIGHT_ON, r, 1);
    assert PlannedAt(LoopTrack(), switches, STRAIGHT_ON, r, 2) && PlannedAt(LoopTrack(), switches, STRAIGHT_ON, r, 3);
    CurveDetour(switches, r.detours[r.primary[0].detour]);
  }

  // ---------- Giving ----------

  /** No train but t holds anything. */
  ghost predicate Alone(table: Table, t: int) {
    0 <= t < |table| && forall u :: 0 <= u < |table| && u != t ==> table[u] == {}
  }

  lemma AllFree(track: seq<Node>, table: Table, t: int, s: Segment)
    requires Alone(table, t)
    ensures Free(track, table, t, s)
  {
  }

  /** The route counts on the leg from the branch, on the one behind the merge, and on the
      same piece of track behind the merge by its detour. */
  ghost predicate AllReserved(r: Route, d: int) {
    && OnLoop(r, d) && r.primary[0].reserved > 0 && r.primary[2].reserved >= 100
    && r.detours[d][1].reserved > 0
  }

  lemma LoopSpans(r: Route, d: int)
    requires OnLoop(r, d)
    ensures var track := LoopTrack();
      && AreLegs(track, r.primary) && AreLegs(track, r.detours[d])
      && (forall n: nat :: n <= 4 ==> Span(track, r.primary, n) <= 300)
      && Span(track, r.primary, 0) == 0
      && (forall n: nat :: n <= 2 ==> Span(track, r.detours[d], n) <= 400)
      && LengthOf(track, r.primary[0]) == 100 && LengthOf(track, r.primary[2]) == 100
      && LengthOf(track, r.detours[d][1]) == 100
  {
    var track := LoopTrack();
    assert LengthOf(track, r.primary[0]) == 100 && LengthOf(track, r.primary[1]) == 100;
    assert LengthOf(track, r.primary[2]) == 100 && LengthOf(track, r.primary[3]) == 0;
    assert LengthOf(track, r.detours[d][0]) == 300 && LengthOf(track, r.detours[d][1]) == 100;
    assert Span(track, r.primary, 1) == 100;
    assert Span(track, r.primary, 2) == 200;
    assert Span(track, r.primary, 3) == 300;
    assert Span(track, r.primary, 4) == 300;
    assert Span(track, r.detours[d], 1) == 300;
    assert Span(track, r.detours[d], 2) == 400;
  }

  /** Giving only raises what is reserved. */
  lemma StaysReserved(table: Table, t: int, r: Route, r2: Route, c: set<Segment>, d: int, node: int, dist: int,
                      wanted: int)
    requires Advanced(LoopTrack(), table, t, r, r2, c, node, dist, wanted) && OnLoop(r, d)
    ensures OnLoop(r2, d)
    ensures forall x, j :: HasLeg(r, x, j) ==> HasLeg(r2, x, j) && LegAt(r2, x, j).reserved >= LegAt(r, x, j).reserved
    ensures AllReserved(r, d) ==> AllReserved(r2, d)
  {
    hide LoopTrack, Free, AdvancedTo;
    SameSizes(r, r2);
    forall x, j | HasLeg(r, x, j)
      ensures HasLeg(r2, x, j) && LegAt(r2, x, j).reserved >= LegAt(r, x, j).reserved
      ensures LegAt(r2, x, j) == LegAt(r, x, j).(reserved := LegAt(r2, x, j).reserved)
    {
      assert MayRaise(LoopTrack(), table, t, LegAt(r, x, j), LegAt(r2, x, j));
    }
    assert forall j :: 0 <= j < 4 ==> HasLeg(r, PRIMARY, j) && LegAt(r2, PRIMARY, j) == r2.primary[j];
    assert forall j :: 0 <= j < 2 ==> HasLeg(r, d, j) && LegAt(r2, d, j) == r2.detours[d][j];
  }

  /** A train at the branch that wants to go on for a metre, alone on the track, is given its
      whole route and the whole detour. */
  lemma GivenAll(table: Table, t: int, r: Route, r2: Route, c: set<Segment>, d: int)
    requires Advanced(LoopTrack(), table, t, r, r2, c, 2, 0, 1000) && OnLoop(r, d) && Alone(table, t)
    ensures AllReserved(r2, d)
  {
    hide LoopTrack, Free, Span, Given;
    var track := LoopTrack();
    StaysReserved(table, t, r, r2, c, d, 2, 0, 1000);
    LoopSpans(r, d);
    LoopSpans(r2, d);
    assert StartOf(r, 2) == 0;
    var stop: nat :| AdvancedTo(track, table, t, r, r2, 0, stop, 0, 1000);
    forall s
      ensures Free(track, table, t, s)
    {
      AllFree(track, table, t, s);
    }
    assert forall j :: 0 <= j < 4 ==> Passes(track, table, t, r.primary, 0, j, 0, 1000);
    assert stop == 4;
    assert DetourAtGiven(track, table, t, r, r2, 0, 0, 0, 1000);
    DetourWhole(table, t, r2, d);
  }

  lemma DetourWhole(table: Table, t: int, r: Route, d: int)
    requires OnLoop(r, d) && AreLegs(LoopTrack(), r.detours[d])
    requires DetourGiven(LoopTrack(), table, t, r.detours[d], 1000)
    requires forall s :: Free(LoopTrack(), table, t, s)
    ensures r.detours[d][1].reserved > 0
  {
    hide Span, Free;
    var track, legs := LoopTrack(), r.detours[d];
    LoopSpans(r, d);
    var k: nat :| k <= 2 && DetourGivenUpTo(track, table, t, legs, k, 1000);
    assert !track[legs[0].at.node].kind.Exit? && !track[legs[1].at.node].kind.Exit?;
    assert k == 2;
  }

  // ---------- Releasing ----------

  /** The route counts on the track behind the merge, and the train does not hold it. */
  ghost predicate Lost(r: Route, c: set<Segment>, d: int) {
    OnLoop(r, d) && r.primary[2].reserved >= 100 && BEHIND_MERGE !in c
  }

  lemma LostIsNotBacked(r: Route, c: set<Segment>, d: int)
    requires Lost(r, c, d)
    ensures !Backed(r, c)
  {
    assert HasLeg(r, PRIMARY, 2) && LegAt(r, PRIMARY, 2) == r.primary[2];
  }

  /** Passing the branch gives up the detour, and with it the track behind the merge. */
  lemma ReleaseLoses(r: Route, c: set<Segment>, r2: Route, d: int)
    requires AllReserved(r, d) && ReleasedTo(r, c, FirstAt(r.primary, 4), r2)
    ensures Clashes(r, c, FirstAt(r.primary, 4))
    ensures Lost(r2, c - GivenUp(r, c, FirstAt(r.primary, 4)), d)
  {
    assert FirstAt(r.primary, 4) == 1;
    SameSizes(r, r2);
    assert GivesDetour(r, c, 1, 0, d) && HasLeg(r, d, 1) && HasLeg(r, PRIMARY, 2);
    assert Dropped(r, c, 1, d, 1) && !Dropped(r, c, 1, PRIMARY, 2);
    assert Clash(r, c, 1, d, 1, PRIMARY, 2);
    DroppedIsGiven(r, c, 1, d, 1);
    forall x, j | HasLeg(r, x, j)
      ensures HasLeg(r2, x, j) && LegAt(r2, x, j) == LegAt(r, x, j).(reserved := LegAt(r2, x, j).reserved)
    {
    }
    assert forall j :: 0 <= j < 4 ==> HasLeg(r, PRIMARY, j) && LegAt(r2, PRIMARY, j) == r2.primary[j];
    assert forall j :: 0 <= j < 2 ==> HasLeg(r, d, j) && LegAt(r2, d, j) == r2.detours[d][j];
  }

  /** Giving more beyond the branch does not bring it back. */
  lemma StaysLost(table: Table, t: int, r: Route, r2: Route, c: set<Segment>, d: int, dist: int, wanted: int)
    requires Advanced(LoopTrack(), table, t, r, r2, c, 4, dist, wanted) && 0 <= t < |table| && Lost(r, table[t], d)
    ensures Lost(r2, c, d)
  {
    hide LoopTrack, Free, Span;
    var track := LoopTrack();
    StaysReserved(table, t, r, r2, c, d, 4, dist, wanted);
    assert HasLeg(r, PRIMARY, 2) && LegAt(r2, PRIMARY, 2) == r2.primary[2];
    assert r.primary[0].at.node == 2 && r.primary[1].at.node == 4 && StartOf(r, 4) == 1;
    var stop: nat :| AdvancedTo(track, table, t, r, r2, 1, stop, dist, wanted);
    forall x, j
      ensures !Raised(r, r2, x, j, BEHIND_MERGE)
    {
      NotRaised(table, t, r, r2, c, d, dist, wanted, stop, x, j);
    }
    assert !SomeRaised(r, r2, BEHIND_MERGE);
  }

  lemma NotRaised(table: Table, t: int, r: Route, r2: Route, c: set<Segment>, d: int, dist: int, wanted: int, stop: nat,
                  x: int, j: int)
    requires OnLoop(r, d) && r.primary[2].reserved >= 100 && 0 <= t < |table| && RouteOk(LoopTrack(), r)
    requires Given(LoopTrack(), table, t, r, r2, c) && DetoursWithin(LoopTrack(), r, r2, 1, stop, dist, wanted)
    ensures !Raised(r, r2, x, j, BEHIND_MERGE)
  {
    hide LoopTrack, Free, Span, InReach, ReachedFrom, OnLoop;
    if Raised(r, r2, x, j, BEHIND_MERGE) {
      RaisedWhere(table, t, r, r2, c, d, x, j);
      NoneReached(r, d, stop, x, j, dist, wanted);
    }
  }

  lemma NoneReached(r: Route, d: int, stop: nat, x: int, j: nat, dist: int, wanted: int)
    requires OnLoop(r, d) && x != PRIMARY
    ensures forall i :: !ReachedFrom(LoopTrack(), r, 1, stop, i, x, j, dist, wanted)
  {
    hide LoopTrack, Span, InReach;
  }

  lemma RaisedWhere(table: Table, t: int, r: Route, r2: Route, c: set<Segment>, d: int, x: int, j: int)
    requires OnLoop(r, d) && r.primary[2].reserved >= 100 && 0 <= t < |table| && RouteOk(LoopTrack(), r)
    requires Given(LoopTrack(), table, t, r, r2, c) && Raised(r, r2, x, j, BEHIND_MERGE)
    ensures x != PRIMARY
  {
    hide Free;
    assert MayRaise(LoopTrack(), table, t, LegAt(r, x, j), LegAt(r2, x, j));
    assert forall k :: 0 <= k < 4 && r.primary[k].at.node == 6 ==> k == 2;
  }

  // ---------- The messages that lead there ----------

  const TRAIN := 1
  const ASK := RouteRequest(TRAIN, Position(2, 0), 8, 1000)
  const AT_SENSOR := ReservationRequest(TRAIN, Position(4, 0), 1000)
  const PASSED := FreeReservation(TRAIN, 4)

  ghost predicate AtLoop(env: Readings) {
    && env.fwdGoal == 8 && Elsewhere(env.revGoal)
    && |env.reversible| == |env.switches| == TRACK_MAX
  }

  /** The answer to the question is the way straight on. */
  lemma AnswerIsStraightOn(table: Table, t: int, env: Readings, r: Route, planned: Route)
    requires AtLoop(env) && Alone(table, t) && Answered(LoopTrack(), table, t, 2, env, r, planned)
    ensures planned.primary != [] && OnLoop(planned, planned.primary[0].detour)
  {
    hide LoopTrack, IsRoute, RouteCost, PlannedUpTo, IsWalk, WalkCost, ValidQuery, Free;
    var q, length, forward :| IsAnswer(LoopTrack(), table, t, 2, env, r, planned, q, length, forward);
    NoConflict(table, t, q);
    StraightOnCosts(q);
    OnlyStraightOn(q, NodesOf(planned.primary), if forward then 8 else env.revGoal);
    PlannedOnLoop(env.switches, planned);
  }

  lemma NoConflict(table: Table, t: int, q: Query)
    requires Alone(table, t) && AreConflicts(LoopTrack(), table, t, q.conflict)
    ensures |q.conflict| == TRACK_MAX
    ensures forall u :: 0 <= u < TRACK_MAX && HasEdge(LoopTrack(), u, 0) ==> !q.conflict[u].0
  {
    hide LoopTrack, Free, HasEdge;
    forall s
      ensures Free(LoopTrack(), table, t, s)
    {
      AllFree(LoopTrack(), table, t, s);
    }
    forall u | 0 <= u < TRACK_MAX && HasEdge(LoopTrack(), u, 0)
      ensures !q.conflict[u].0
    {
      assert ConflictsAt(LoopTrack(), table, t, u, q.conflict[u]);
    }
  }

  lemma AskEffect(table: Table, t: int, env: Readings, r: Route, table2: Table, r2: Route, ok: bool)
    requires AtLoop(env) && Alone(table, t) && |table2| == |table|
    requires TrackOk(LoopTrack()) && Proper(LoopTrack(), ASK, env)
    requires Effect(LoopTrack(), ASK, env, t, table, r, table2, r2, ok)
    ensures ok && exists d :: AllReserved(r2, d)
  {
    hide Answered, Advanced, TrackOk;
    assert !Unroutable(LoopTrack(), ASK);
    var planned :| && Answered(LoopTrack(), table, t, 2, env, r, planned)
                   && (ok ==> Advanced(LoopTrack(), table, t, planned, r2, table2[t], 2, 0, 1000))
                   && (!ok ==> planned.primary == []);
    AnswerIsStraightOn(table, t, env, r, planned);
    GivenAll(table, t, planned, r2, table2[t], planned.primary[0].detour);
  }

  /** Giving to all is giving to t, when no other train has a route. */
  lemma OnlyTrainGiven(table: Table, rs: seq<Route>, table2: Table, rs2: seq<Route>, wanted: seq<int>,
                       places: seq<Position>, n: nat, t: int)
    requires OnlyGiven(LoopTrack(), table, rs, table2, rs2, wanted, places, n) && Alone(table, t)
    requires forall u :: 0 <= u < |table| && u != t ==> rs[u].primary == []
    ensures Alone(table2, t) && forall u :: 0 <= u < |table| && u != t ==> rs2[u] == rs[u]
    ensures
      || (rs2[t] == rs[t] && table2[t] == table[t])
      || exists between :: GivenIn(LoopTrack(), between, table, table2, t, rs[t], rs2[t], places[t], wanted[t])
  {
    hide LoopTrack, GivenIn;
  }

  ghost predicate OnlyTrain(server: RouteServer, t: int)
    reads server, server.status, server.routes, server.trainNumber
  {
    && server.Valid() && server.track == LoopTrack() && server.tampered == {}
    && 0 <= t < MAX_TRAINS && server.trainNumber[t] == TRAIN && Alone(server.Holdings(), t)
    && forall u :: 0 <= u < MAX_TRAINS && u != t ==> server.routes[u].primary == []
  }

  /** A server that has seen no message yet. */
  ghost predicate Fresh(server: RouteServer)
    reads server, server.status, server.routes, server.trainNumber
  {
    && server.Valid() && server.track == LoopTrack() && server.tampered == {}
    && forall u :: 0 <= u < MAX_TRAINS ==>
         server.Holdings()[u] == {} && server.routes[u] == NO_ROUTE && server.trainNumber[u] == -1
  }

  method AskForRoute(server: RouteServer, env: Readings) returns (t: int, ghost d: int)
    requires Fresh(server) && AtLoop(env)
    modifies server`numTrains, server`tampered, server`clashed, server.trainNumber, server.wanted, server.lastPos,
             server.status, server.routes
    ensures OnlyTrain(server, t) && AllReserved(server.routes[t], d)
  {
    hide LoopTrack, Exclusive, TrainSound, Named, Effect, OnlyGiven, AllReserved, RouteServer.Holdings;
    LoopTrackOk();
    AskIsProper(env);
    ghost var h, rs := server.Holdings(), server.routes[..];
    assert server.trainNumber[..][0] == -1 && !NoSlot(server.trainNumber[..], TRAIN);
    var ok;
    ghost var mid, midRoutes;
    ok, t, mid, midRoutes := server.Handle(ASK, env);
    assert Alone(h, t);
    AskEffect(h, t, env, rs[t], mid, midRoutes[t], ok);
    d :| AllReserved(midRoutes[t], d);
    OnlyTrainGiven(mid, midRoutes, server.Holdings(), server.routes[..], server.wanted[..], server.lastPos[..],
                   server.numTrains, t);
    ReservedAfter(mid, midRoutes, server.Holdings(), server.routes[..], server.wanted[..], server.lastPos[..], t, d);
  }

  lemma AskIsProper(env: Readings)
    requires AtLoop(env)
    ensures Proper(LoopTrack(), ASK, env) && Proper(LoopTrack(), AT_SENSOR, env) && Proper(LoopTrack(), PASSED, env)
  {
  }

  lemma ReservedAfter(table: Table, rs: seq<Route>, table2: Table, rs2: seq<Route>, wanted: seq<int>,
                      places: seq<Position>, t: int, d: int)
    requires 0 <= t < |table| == |rs| == |table2| == |rs2| == |wanted| == |places| && AllReserved(rs[t], d)
    requires
      || (rs2[t] == rs[t] && table2[t] == table[t])
      || exists between :: GivenIn(LoopTrack(), between, table, table2, t, rs[t], rs2[t], places[t], wanted[t])
    ensures AllReserved(rs2[t], d)
  {
    hide LoopTrack, Advanced;
    if rs2[t] != rs[t] || table2[t] != table[t] {
      var between :| GivenIn(LoopTrack(), between, table, table2, t, rs[t], rs2[t], places[t], wanted[t]);
      StaysReserved(between, t, rs[t], rs2[t], table2[t], d, places[t].node, -places[t].offset, wanted[t]);
    }
  }

  /** The train says that it is at the sensor; its route stays as it was, but for more
      reservations. */
  method MoveOn(server: RouteServer, env: Readings, t: int, ghost d: int)
    requires OnlyTrain(server, t) && AtLoop(env) && AllReserved(server.routes[t], d)
    modifies server`numTrains, server`tampered, server`clashed, server.trainNumber, server.wanted, server.lastPos,
             server.status, server.routes
    ensures OnlyTrain(server, t) && AllReserved(server.routes[t], d)
    ensures server.wanted[t] == 1000 && server.lastPos[t] == Position(4, 0)
  {
    hide LoopTrack, Exclusive, TrainSound, Named, Effect, OnlyGiven, AllReserved, RouteServer.Holdings;
    AskIsProper(env);
    ghost var h, rs := server.Holdings(), server.routes[..];
    assert server.trainNumber[..][t] == TRAIN && !NoSlot(server.trainNumber[..], TRAIN);
    var ok, t2, mid, midRoutes := server.Handle(AT_SENSOR, env);
    OneSlot(server.trainNumber[..], t, t2);
    MoveEffect(h, t, env, rs[t], mid, midRoutes[t], ok, d);
    OnlyTrainGiven(mid, midRoutes, server.Holdings(), server.routes[..], server.wanted[..], server.lastPos[..],
                   server.numTrains, t);
    ReservedAfter(mid, midRoutes, server.Holdings(), server.routes[..], server.wanted[..], server.lastPos[..], t, d);
  }

  lemma OneSlot(numbers: seq<int>, t: int, u: int)
    requires Named(numbers) && 0 <= t < |numbers| && 0 <= u < |numbers| && numbers[t] == TRAIN && numbers[u] == TRAIN
    ensures t == u
  {
  }

  lemma MoveEffect(table: Table, t: int, env: Readings, r: Route, table2: Table, r2: Route, ok: bool, d: int)
    requires 0 <= t < |table| == |table2| && TrackOk(LoopTrack()) && Proper(LoopTrack(), AT_SENSOR, env)
    requires Effect(LoopTrack(), AT_SENSOR, env, t, table, r, table2, r2, ok) && AllReserved(r, d)
    ensures ok && AllReserved(r2, d)
  {
    hide Advanced, TrackOk, LoopTrack;
    StaysReserved(table, t, r, r2, table2[t], d, 4, 0, 1000);
  }

  /** The train gives up what is before the sensor, and loses what is behind the merge. */
  method PassBranch(server: RouteServer, env: Readings, t: int, ghost d: int)
    requires OnlyTrain(server, t) && AtLoop(env) && AllReserved(server.routes[t], d)
    requires server.wanted[t] == 1000 && server.lastPos[t] == Position(4, 0)
    modifies server`numTrains, server`tampered, server`clashed, server.trainNumber, server.wanted, server.lastPos,
             server.status, server.routes
    ensures OnlyTrain(server, t) && Lost(server.routes[t], server.Holdings()[t], d)
  {
    hide LoopTrack, Exclusive, TrainSound, Named, Effect, OnlyGiven, AllReserved, Lost, RouteServer.Holdings;
    AskIsProper(env);
    ghost var h, rs := server.Holdings(), server.routes[..];
    assert server.trainNumber[..][t] == TRAIN && !NoSlot(server.trainNumber[..], TRAIN);
    var ok, t2, mid, midRoutes := server.Handle(PASSED, env);
    OneSlot(server.trainNumber[..], t, t2);
    PassEffect(h, t, env, rs[t], mid, midRoutes[t], ok, d);
    OnlyTrainGiven(mid, midRoutes, server.Holdings(), server.routes[..], server.wanted[..], server.lastPos[..],
                   server.numTrains, t);
    LostAfter(mid, midRoutes, server.Holdings(), server.routes[..], server.wanted[..], server.lastPos[..], t, d);
  }

  lemma PassEffect(table: Table, t: int, env: Readings, r: Route, table2: Table, r2: Route, ok: bool, d: int)
    requires 0 <= t < |table| == |table2| && TrackOk(LoopTrack()) && Proper(LoopTrack(), PASSED, env)
    requires Effect(LoopTrack(), PASSED, env, t, table, r, table2, r2, ok) && AllReserved(r, d)
    ensures ok && Lost(r2, table2[t], d)
  {
    hide TrackOk, LoopTrack, ReleasedTo, GivenUp, AllReserved, Lost;
    ReleaseLoses(r, OnlyOnRoute(r, table[t]), r2, d);
  }

  lemma LostAfter(table: Table, rs: seq<Route>, table2: Table, rs2: seq<Route>, wanted: seq<int>, places: seq<Position>,
                  t: int, d: int)
    requires 0 <= t < |table| == |rs| == |table2| == |rs2| == |wanted| == |places| && Lost(rs[t], table[t], d)
    requires places[t] == Position(4, 0)
    requires
      || (rs2[t] == rs[t] && table2[t] == table[t])
      || exists between :: GivenIn(LoopTrack(), between, table, table2, t, rs[t], rs2[t], places[t], wanted[t])
    ensures Lost(rs2[t], table2[t], d)
  {
    hide LoopTrack, Advanced, Lost;
    if rs2[t] != rs[t] || table2[t] != table[t] {
      var between :| GivenIn(LoopTrack(), between, table, table2, t, rs[t], rs2[t], places[t], wanted[t]);
      StaysLost(between, t, rs[t], rs2[t], table2[t], d, -places[t].offset, wanted[t]);
    }
  }

  /** A train asks for a route from the branch to the exit, says that it has got to the
      sensor, and gives up what it has passed.  The server ends in a valid state, with nothing
      freed by hand, in which the route counts on track that the train does not hold. */
  method LoseTrack(env: Readings) returns (server: RouteServer, t: int)
    requires AtLoop(env)
    ensures OnlyTrain(server, t) && !Backed(server.routes[t], server.Holdings()[t])
  {
    hide LoopTrack, Exclusive, TrainSound, Named, AllReserved, Lost, Backed, RouteServer.Holdings;
    LoopTrackOk();
    server := new RouteServer(LoopTrack());
    ghost var d;
    t, d := AskForRoute(server, env);
    MoveOn(server, env, t, d);
    PassBranch(server, env, t, d);
    LostIsNotBacked(server.routes[t], server.Holdings()[t], d);
  }
}
