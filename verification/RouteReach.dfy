/** How far reservations are given, told by the distances that the route carries. */
module RouteReach {
  import opened Track
  import opened RouteSearch
  import opened Reservations
  import opened Detours

  /** Every leg's distance is that of the leg before it and the length of that leg's edge. */
  ghost predicate Measured(track: seq<Node>, legs: seq<Leg>)
    requires AreLegs(track, legs)
  {
    forall i {:trigger legs[i]} :: 0 < i < |legs| ==>
      legs[i].at.distance == legs[i - 1].at.distance + LengthOf(track, legs[i - 1])
  }

  lemma {:induction false} SpanIsDistance(track: seq<Node>, legs: seq<Leg>, j: nat, k: nat)
    requires AreLegs(track, legs) && Measured(track, legs) && j <= k < |legs|
    ensures Span(track, legs, k) - Span(track, legs, j) == legs[k].at.distance - legs[j].at.distance
    decreases k - j
  {
    if j < k {
      SpanIsDistance(track, legs, j, k - 1);
    }
  }

  lemma {:induction false} DistanceRises(track: seq<Node>, legs: seq<Leg>, j: nat, k: nat)
    requires TrackOk(track) && AreLegs(track, legs) && Measured(track, legs) && j <= k < |legs|
    requires forall i :: j <= i < k ==> !track[legs[i].at.node].kind.Exit?
    ensures legs[j].at.distance <= legs[k].at.distance
    decreases k - j
  {
    hide WellFormed;
    if j < k {
      DistanceRises(track, legs, j, k - 1);
      assert IsSegment(track, SegmentOf(legs[k - 1]));
    }
  }

  /** The train can get to leg k without reversing and without anybody in its way. */
  ghost predicate ClearTo(track: seq<Node>, table: Table, t: int, legs: seq<Leg>, start: nat, k: nat)
    requires AreLegs(track, legs)
  {
    && start <= k < |legs|
    && (forall j :: start <= j < k ==> !legs[j].at.reverseHere)
    && (forall j :: start <= j <= k ==>
          legs[j].reserved >= LengthOf(track, legs[j]) || Free(track, table, t, SegmentOf(legs[j])))
  }

  /** The train's way goes on from leg `start`: the first one at this node, or, when the route
      does not pass the node, the one whose position is the number of the first node. */
  ghost predicate StartsAt(legs: seq<Leg>, node: int, start: int) {
    && 0 <= start < |legs|
    && if forall j :: 0 <= j < |legs| ==> legs[j].at.node != node then start == legs[0].at.node
       else legs[start].at.node == node && forall j :: 0 <= j < start ==> legs[j].at.node != node
  }

  /** A train that is `dist` past a node of its route and wants to go `wanted` further is
      given exactly the legs, from that node on, that begin nearer than that and that it can
      get to; no other leg of the primary route changes. */
  lemma WantedIsGiven(track: seq<Node>, table: Table, t: int, r: Route, r2: Route, c: set<Segment>, node: int,
                      dist: int, wanted: int, start: nat, k: nat)
    requires TrackOk(track) && Advanced(track, table, t, r, r2, c, node, dist, wanted)
    requires Measured(track, r.primary) && StartsAt(r.primary, node, start) && k < |r.primary|
    requires forall i :: 0 <= i < |r.primary| - 1 ==> !track[r.primary[i].at.node].kind.Exit?
    ensures |r2.primary| == |r.primary|
    ensures
      var leg := r.primary[k];
      var given :=
        && k >= start && dist + leg.at.distance - r.primary[start].at.distance < wanted
        && ClearTo(track, table, t, r.primary, start, k);
      if given && leg.reserved < LengthOf(track, leg) then
        r2.primary[k] == leg.(reserved := LengthOf(track, leg)) && SegmentOf(leg) in c
      else
        r2.primary[k] == leg
  {
    hide Free, Span, DetoursGiven, DetoursWithin, WellFormed, IsSegment;
    assert StartOf(r, node) == start;
    var stop: nat :| AdvancedTo(track, table, t, r, r2, start, stop, dist, wanted);
    if k >= start {
      GoesUpTo(track, table, t, r.primary, start, stop, k, dist, wanted);
    }
    RaisedHeld(track, table, t, r, r2, c, k);
  }

  /** Leg j is near enough, not behind a reversal, and long enough already or free. */
  ghost predicate NearAt(track: seq<Node>, table: Table, t: int, legs: seq<Leg>, start: nat, j: nat, dist: int,
                         wanted: int)
    requires AreLegs(track, legs) && start <= j < |legs|
  {
    && dist + legs[j].at.distance - legs[start].at.distance < wanted
    && (j > start ==> !legs[j - 1].at.reverseHere)
    && (legs[j].reserved >= LengthOf(track, legs[j]) || Free(track, table, t, SegmentOf(legs[j])))
  }

  /** The legs before the stop are exactly those that are near enough and clear. */
  lemma GoesUpTo(track: seq<Node>, table: Table, t: int, legs: seq<Leg>, start: nat, stop: nat, k: nat, dist: int,
                 wanted: int)
    requires TrackOk(track) && AreLegs(track, legs) && Measured(track, legs) && start <= k < |legs|
    requires GivenUpTo(track, table, t, legs, start, stop, dist, wanted)
    requires forall i :: 0 <= i < |legs| - 1 ==> !track[legs[i].at.node].kind.Exit?
    ensures k < stop <==>
      && dist + legs[k].at.distance - legs[start].at.distance < wanted
      && ClearTo(track, table, t, legs, start, k)
  {
    hide Free, Span, Passes, WellFormed, IsSegment, NearAt, ClearTo;
    if k < stop {
      forall j | start <= j <= k
        ensures NearAt(track, table, t, legs, start, j, dist, wanted)
      {
        PassesByDistance(track, table, t, legs, start, j, dist, wanted);
      }
      AllNear(track, table, t, legs, start, k, dist, wanted);
    } else {
      PassesByDistance(track, table, t, legs, start, stop, dist, wanted);
      DistanceRises(track, legs, stop, k);
      NotClear(track, table, t, legs, start, stop, k, dist, wanted);
    }
  }

  lemma AllNear(track: seq<Node>, table: Table, t: int, legs: seq<Leg>, start: nat, k: nat, dist: int, wanted: int)
    requires AreLegs(track, legs) && start <= k < |legs|
    requires forall j :: start <= j <= k ==> NearAt(track, table, t, legs, start, j, dist, wanted)
    ensures dist + legs[k].at.distance - legs[start].at.distance < wanted && ClearTo(track, table, t, legs, start, k)
  {
    hide Free;
    assert NearAt(track, table, t, legs, start, k, dist, wanted);
    forall j | start <= j <= k
      ensures j < k ==> !legs[j].at.reverseHere
      ensures legs[j].reserved >= LengthOf(track, legs[j]) || Free(track, table, t, SegmentOf(legs[j]))
    {
      assert NearAt(track, table, t, legs, start, j, dist, wanted);
      assert j < k ==> NearAt(track, table, t, legs, start, j + 1, dist, wanted);
    }
  }

  lemma NotClear(track: seq<Node>, table: Table, t: int, legs: seq<Leg>, start: nat, stop: nat, k: nat, dist: int,
                 wanted: int)
    requires AreLegs(track, legs) && start <= stop <= k < |legs|
    requires !NearAt(track, table, t, legs, start, stop, dist, wanted)
    requires legs[stop].at.distance <= legs[k].at.distance
    ensures dist + legs[k].at.distance - legs[start].at.distance >= wanted || !ClearTo(track, table, t, legs, start, k)
  {
    hide Free, IsSegment;
  }

  lemma PassesByDistance(track: seq<Node>, table: Table, t: int, legs: seq<Leg>, start: nat, j: nat, dist: int,
                         wanted: int)
    requires AreLegs(track, legs) && Measured(track, legs) && start <= j < |legs|
    ensures Passes(track, table, t, legs, start, j, dist, wanted) <==>
      NearAt(track, table, t, legs, start, j, dist, wanted)
  {
    hide Free, IsSegment;
    SpanIsDistance(track, legs, start, j);
  }

  lemma RaisedHeld(track: seq<Node>, table: Table, t: int, r: Route, r2: Route, c: set<Segment>, k: nat)
    requires 0 <= t < |table| && RouteOk(track, r) && Given(track, table, t, r, r2, c) && k < |r.primary|
    ensures |r2.primary| == |r.primary| && (r2.primary[k] != r.primary[k] ==> SegmentOf(r.primary[k]) in c)
  {
    hide Free, IsSegment;
    SameSizes(r, r2);
    assert HasLeg(r, PRIMARY, k) && LegAt(r, PRIMARY, k) == r.primary[k] && LegAt(r2, PRIMARY, k) == r2.primary[k];
  }

  /** The detour at leg i, once leg i has been given: its legs count on their segments as far
      as the train wants to go that way, with no exit and nobody in the way. */
  lemma DetourFollows(track: seq<Node>, table: Table, t: int, r: Route, r2: Route, c: set<Segment>, node: int,
                      dist: int, wanted: int, start: nat, i: nat, m: nat)
    requires TrackOk(track) && Advanced(track, table, t, r, r2, c, node, dist, wanted)
    requires Measured(track, r.primary) && StartsAt(r.primary, node, start) && start <= i < |r.primary|
    requires forall j :: 0 <= j < |r.primary| - 1 ==> !track[r.primary[j].at.node].kind.Exit?
    requires dist + r.primary[i].at.distance - r.primary[start].at.distance < wanted
    requires ClearTo(track, table, t, r.primary, start, i)
    requires 0 <= r.primary[i].detour < |r2.detours|
    requires
      var legs := r2.detours[r.primary[i].detour];
      && m < |legs| && AreLegs(track, legs) && Measured(track, legs)
      && dist + r.primary[i].at.distance - r.primary[start].at.distance
           + legs[m].at.distance - legs[0].at.distance < wanted
      && forall j :: 0 <= j <= m ==>
           && !track[legs[j].at.node].kind.Exit?
           && (legs[j].reserved > 0 || Free(track, table, t, SegmentOf(legs[j])))
    ensures r2.detours[r.primary[i].detour][m].reserved > 0
  {
    hide Free, Span, PrimaryGiven, DetoursWithin, WellFormed, IsSegment, DetourGiven, ClearTo;
    assert StartOf(r, node) == start;
    var stop: nat :| AdvancedTo(track, table, t, r, r2, start, stop, dist, wanted);
    GoesUpTo(track, table, t, r.primary, start, stop, i, dist, wanted);
    assert DetourAtGiven(track, table, t, r, r2, start, i, dist, wanted);
    SpanIsDistance(track, r.primary, start, i);
    DetourIsGiven(track, table, t, r2.detours[r.primary[i].detour],
                  wanted - (dist + Span(track, r.primary, i) - Span(track, r.primary, start)), m);
  }

  /** The legs of a detour that begin nearer than `distance`, with no exit and nobody in the
      way, count on their segments once it has been given. */
  lemma DetourIsGiven(track: seq<Node>, table: Table, t: int, legs: seq<Leg>, distance: int, m: nat)
    requires TrackOk(track) && AreLegs(track, legs) && Measured(track, legs) && m < |legs|
    requires DetourGiven(track, table, t, legs, distance)
    requires legs[m].at.distance - legs[0].at.distance < distance
    requires forall j :: 0 <= j <= m ==> !track[legs[j].at.node].kind.Exit?
    requires forall j :: 0 <= j <= m ==> legs[j].reserved > 0 || Free(track, table, t, SegmentOf(legs[j]))
    ensures legs[m].reserved > 0
  {
    hide Free, Span, WellFormed, IsSegment;
    var k: nat :| k <= |legs| && DetourGivenUpTo(track, table, t, legs, k, distance);
    if k <= m {
      SpanIsDistance(track, legs, 0, k);
      NoSpan(track, legs);
      DistanceRises(track, legs, k, m);
    } else {
      LengthPositive(track, legs[m]);
    }
  }

  lemma NoSpan(track: seq<Node>, legs: seq<Leg>)
    requires AreLegs(track, legs)
    ensures Span(track, legs, 0) == 0
  {
  }

  lemma LengthPositive(track: seq<Node>, leg: Leg)
    requires TrackOk(track) && IsSegment(track, SegmentOf(leg)) && !track[leg.at.node].kind.Exit?
    ensures LengthOf(track, leg) > 0
  {
  }

  /** A planned route carries exact distances. */
  lemma PlannedMeasured(track: seq<Node>, switches: seq<SwitchReading>, q: Query, r: seq<RouteNode>, goal: int,
                        route: Route)
    requires |switches| == |track| && AreSegments(track, r) && PlannedUpTo(track, switches, r, route, |r|)
    requires ValidQuery(q) && q.track == track && IsRoute(q, r, goal)
    ensures AreLegs(track, route.primary) && Measured(track, route.primary)
    ensures forall i :: 0 <= i < |route.primary| - 1 ==> !track[route.primary[i].at.node].kind.Exit?
  {
    hide WellFormed, IsDetour, DetourLength, IsSegment;
    forall i | 0 <= i < |r|
      ensures route.primary[i].at == r[i] && IsSegment(track, SegmentOf(route.primary[i]))
    {
      assert PlannedAt(track, switches, r, route, i);
    }
    forall i | 0 <= i < |r| - 1
      ensures HasEdge(track, r[i].node, r[i].edge)
      ensures r[i + 1].distance == r[i].distance + Dist(track, r[i].node, r[i].edge)
    {
      assert StepOk(q, r, i);
    }
  }
}
