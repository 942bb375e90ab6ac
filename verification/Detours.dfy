/** The secondary routes: where the train goes from each branch of its route if the switch
    there fails. */
module Detours {
  import opened Track
  import opened RouteSearch
  import opened Reservations

  const MAX_DETOUR := 10
  const DETOUR_LENGTH := 600

  /** A detour ends before an exit, and before a branch whose switch is not known. */
  predicate EndsBefore(track: seq<Node>, switches: seq<SwitchReading>, node: int)
    requires IsNode(track, node) && |switches| == |track|
  {
    track[node].kind.Exit? || (track[node].kind.Branch? && switches[node].Unknown?)
  }

  /** The distance of the first sensor after the start of a detour. */
  ghost function FirstSensor(track: seq<Node>, legs: seq<Leg>): (d: int)
    requires AreLegs(track, legs)
  {
    if |legs| <= 1 then INT_MAX
    else
      var last := legs[|legs| - 1];
      var d := FirstSensor(track, legs[..|legs| - 1]);
      if track[last.at.node].kind.Sensor? && d == INT_MAX then last.at.distance else d
  }

  /** The detour goes as far past its first sensor as it should. */
  ghost predicate FarEnough(track: seq<Node>, legs: seq<Leg>, desired: int)
    requires AreLegs(track, legs)
  {
    legs != [] && legs[|legs| - 1].at.distance - FirstSensor(track, legs) >= desired
  }

  ghost predicate DetourStep(track: seq<Node>, switches: seq<SwitchReading>, a: Leg, b: Leg)
    requires |switches| == |track|
  {
    && HasEdge(track, a.at.node, a.at.edge)
    && var next := Dest(track, a.at.node, a.at.edge);
    && IsNode(track, next) && !EndsBefore(track, switches, next)
    && b == Leg(RouteNode(next, a.at.distance + Dist(track, a.at.node, a.at.edge), ExpectedEdge(track, switches, next),
                          false),
                0, PRIMARY)
  }

  ghost predicate StepAt(track: seq<Node>, switches: seq<SwitchReading>, legs: seq<Leg>, i: nat)
    requires |switches| == |track| && i + 1 < |legs|
  {
    DetourStep(track, switches, legs[i], legs[i + 1])
  }

  /** A walk along the switches that starts by the other edge of a branch. */
  ghost predicate DetourSoFar(track: seq<Node>, switches: seq<SwitchReading>, legs: seq<Leg>, from: RouteNode,
                              desired: int)
    requires |switches| == |track|
  {
    && 1 <= |legs| <= MAX_DETOUR && AreLegs(track, legs)
    && legs[0] == Leg(RouteNode(from.node, from.distance, 1 - from.edge, false), 0, PRIMARY)
    && (forall i :: 0 <= i < |legs| - 1 ==> StepAt(track, switches, legs, i))
    && (forall i :: 1 <= i < |legs| ==> !FarEnough(track, legs[..i], desired))
  }

  /** The detour of a branch: it is no longer than it has to be, and no shorter unless it
      has no room or comes to an end. */
  ghost predicate IsDetour(track: seq<Node>, switches: seq<SwitchReading>, legs: seq<Leg>, from: RouteNode,
                           desired: int)
    requires |switches| == |track|
  {
    && DetourSoFar(track, switches, legs, from, desired)
    && var last := legs[|legs| - 1].at;
    && HasEdge(track, last.node, last.edge) && IsNode(track, Dest(track, last.node, last.edge))
    && (|legs| == MAX_DETOUR || FarEnough(track, legs, desired)
        || EndsBefore(track, switches, Dest(track, last.node, last.edge)))
  }

  method AddSecondaryRoute(track: seq<Node>, switches: seq<SwitchReading>, from: RouteNode, desired: int)
    returns (secondary: seq<Leg>)
    requires TrackOk(track) && |switches| == |track|
    requires IsNode(track, from.node) && track[from.node].kind.Branch? && 0 <= from.edge <= 1
    ensures IsDetour(track, switches, secondary, from, desired)
  {
    hide FarEnough, StepAt;
    var direction := 1 - from.edge;
    secondary := [Leg(RouteNode(from.node, from.distance, direction, false), 0, PRIMARY)];
    assert EdgeOk(track, from.node, direction);
    var nextNode, nextDistance := Dest(track, from.node, direction), from.distance + Dist(track, from.node, direction);
    var firstSensor := INT_MAX;
    while |secondary| < MAX_DETOUR && secondary[|secondary| - 1].at.distance - firstSensor < desired
      invariant DetourSoFar(track, switches, secondary, from, desired) && firstSensor == FirstSensor(track, secondary)
      invariant var last := secondary[|secondary| - 1].at;
        && HasEdge(track, last.node, last.edge) && IsNode(track, nextNode)
        && nextNode == Dest(track, last.node, last.edge)
        && nextDistance == last.distance + Dist(track, last.node, last.edge)
    {
      NotFarEnough(track, secondary, desired);
      var node := nextNode;
      if track[node].kind.Sensor? && firstSensor == INT_MAX {
        firstSensor := nextDistance;
      }
      if EndsBefore(track, switches, node) {
        return;
      }
      var edge := ExpectedEdge(track, switches, node);
      var leg := Leg(RouteNode(node, nextDistance, edge, false), 0, PRIMARY);
      LongerDetour(track, switches, secondary, leg, from, desired);
      secondary := secondary + [leg];
      assert EdgeOk(track, node, edge);
      nextNode, nextDistance := Dest(track, node, edge), nextDistance + Dist(track, node, edge);
    }
    NotFarEnough(track, secondary, desired);
  }

  lemma NotFarEnough(track: seq<Node>, legs: seq<Leg>, desired: int)
    requires AreLegs(track, legs) && legs != []
    ensures FarEnough(track, legs, desired) <==> legs[|legs| - 1].at.distance - FirstSensor(track, legs) >= desired
  {
  }

  lemma LongerDetour(track: seq<Node>, switches: seq<SwitchReading>, legs: seq<Leg>, leg: Leg, from: RouteNode,
                     desired: int)
    requires |switches| == |track| && DetourSoFar(track, switches, legs, from, desired) && |legs| < MAX_DETOUR
    requires DetourStep(track, switches, legs[|legs| - 1], leg) && !FarEnough(track, legs, desired)
    requires IsSegment(track, SegmentOf(leg))
    ensures DetourSoFar(track, switches, legs + [leg], from, desired)
    ensures FirstSensor(track, legs + [leg]) ==
      if track[leg.at.node].kind.Sensor? && FirstSensor(track, legs) == INT_MAX then leg.at.distance
      else FirstSensor(track, legs)
  {
    hide FarEnough, DetourStep;
    var legs2 := legs + [leg];
    assert legs2[..|legs|] == legs;
    forall i | 0 <= i < |legs2| - 1
      ensures StepAt(track, switches, legs2, i)
    {
      assert i < |legs| - 1 ==> StepAt(track, switches, legs, i);
    }
    forall i | 1 <= i < |legs2|
      ensures !FarEnough(track, legs2[..i], desired)
    {
      assert legs2[..i] == legs[..i];
      assert i == |legs| ==> legs[..i] == legs;
    }
  }

  // ---------- All the detours of a route ----------

  ghost predicate AreSegments(track: seq<Node>, r: seq<RouteNode>) {
    r != [] && forall i :: 0 <= i < |r| ==> IsSegment(track, (r[i].node, r[i].edge))
  }

  /** Where the train will have stopped once it has passed node i: at the end of the next
      edge from a branch that it reverses on, or at the end of the route. */
  ghost function StopAfter(track: seq<Node>, r: seq<RouteNode>, i: nat): (d: int)
    requires AreSegments(track, r) && i <= |r|
    decreases |r| - i
  {
    if i == |r| then
      var last := r[|r| - 1];
      if track[last.node].kind.Exit? then last.distance else last.distance + Dist(track, last.node, last.edge)
    else if track[r[i].node].kind.Branch? && r[i].reverseHere then r[i].distance + Dist(track, r[i].node, r[i].edge)
    else StopAfter(track, r, i + 1)
  }

  /** How long the detour at node i has to be; only a branch has one. */
  ghost function DetourLength(track: seq<Node>, r: seq<RouteNode>, i: nat): (d: int)
    requires AreSegments(track, r) && i < |r|
  {
    var left := StopAfter(track, r, i) - r[i].distance;
    if !track[r[i].node].kind.Branch? then -1 else if left < DETOUR_LENGTH then left else DETOUR_LENGTH
  }

  method DetourLengths(track: seq<Node>, r: seq<RouteNode>) returns (lengths: seq<int>)
    requires AreSegments(track, r)
    ensures |lengths| == |r| && forall i :: 0 <= i < |r| ==> lengths[i] == DetourLength(track, r, i)
  {
    var last := r[|r| - 1];
    var routeDistance := last.distance;
    if !track[last.node].kind.Exit? {
      routeDistance := routeDistance + Dist(track, last.node, last.edge);
    }
    lengths := [];
    for i := |r| downto 0
      invariant |lengths| == |r| - i && routeDistance == StopAfter(track, r, i)
      invariant forall j :: i <= j < |r| ==> lengths[j - i] == DetourLength(track, r, j)
    {
      var length := -1;
      if track[r[i].node].kind.Branch? {
        if r[i].reverseHere {
          routeDistance := r[i].distance + Dist(track, r[i].node, r[i].edge);
        }
        var left := routeDistance - r[i].distance;
        length := if left < DETOUR_LENGTH then left else DETOUR_LENGTH;
      }
      lengths := [length] + lengths;
    }
  }

  /** A detour is wanted for as far as the train goes before it has stopped, at most 600: from
      a branch up to the end of the first edge behind it that starts at a branch and is
      reversed on, and no further; without such an edge, to the end of the route. */
  lemma {:induction false} WantedLength(track: seq<Node>, r: seq<RouteNode>, i: nat, j: nat)
    requires AreSegments(track, r) && i <= j <= |r| && i < |r| && track[r[i].node].kind.Branch?
    requires forall k :: i <= k < j ==> !(track[r[k].node].kind.Branch? && r[k].reverseHere)
    requires j < |r| ==> track[r[j].node].kind.Branch? && r[j].reverseHere
    ensures
      var end := if j < |r| then r[j] else r[|r| - 1];
      var length := (if track[end.node].kind.Exit? then 0 else Dist(track, end.node, end.edge)) +
        end.distance - r[i].distance;
      DetourLength(track, r, i) == if length < 600 then length else 600
  {
    StopsThere(track, r, i, j);
  }

  lemma {:induction false} StopsThere(track: seq<Node>, r: seq<RouteNode>, i: nat, j: nat)
    requires AreSegments(track, r) && i <= j <= |r|
    requires forall k :: i <= k < j ==> !(track[r[k].node].kind.Branch? && r[k].reverseHere)
    requires j < |r| ==> track[r[j].node].kind.Branch? && r[j].reverseHere
    ensures
      var end := if j < |r| then r[j] else r[|r| - 1];
      StopAfter(track, r, i) ==
        end.distance + if track[end.node].kind.Exit? then 0 else Dist(track, end.node, end.edge)
    decreases j - i
  {
    if i < j {
      StopsThere(track, r, i + 1, j);
    }
  }

  /** The first sensor of a detour is the first one behind its start. */
  lemma {:induction false} FirstSensorAt(track: seq<Node>, legs: seq<Leg>, k: nat)
    requires AreLegs(track, legs) && 1 <= k <= |legs|
    requires forall j :: 1 <= j < k ==> !track[legs[j].at.node].kind.Sensor?
    requires k < |legs| ==> track[legs[k].at.node].kind.Sensor? && legs[k].at.distance < INT_MAX
    ensures FirstSensor(track, legs) == if k < |legs| then legs[k].at.distance else INT_MAX
    decreases |legs|
  {
    if |legs| > 1 {
      var shorter := legs[..|legs| - 1];
      FirstSensorAt(track, shorter, if k < |legs| then k else |legs| - 1);
    }
  }

  /** A detour leaves the branch by its other edge and follows the switches with exact
      distances.  It has at most ten legs, and stops before that only in front of an exit or
      of a branch whose switch is unknown, or as far behind its first sensor as it should. */
  lemma DetourGoes(track: seq<Node>, switches: seq<SwitchReading>, legs: seq<Leg>, from: RouteNode, desired: int,
                   i: nat)
    requires |switches| == |track| && IsDetour(track, switches, legs, from, desired) && i < |legs|
    ensures 1 <= |legs| <= 10 && 0 <= legs[i].at.node < |track|
    ensures i == 0 ==>
      legs[0].at.node == from.node && legs[0].at.edge == 1 - from.edge && legs[0].at.distance == from.distance
    ensures
      var e := if legs[i].at.edge == 0 then track[legs[i].at.node].ahead else track[legs[i].at.node].curved;
      && 0 <= e.dest < |track|
      && var curve := track[e.dest].kind.Branch? && switches[e.dest].Curved?;
      var dead := track[e.dest].kind.Exit? || (track[e.dest].kind.Branch? && switches[e.dest].Unknown?);
      && (i + 1 < |legs| ==>
            && !dead && legs[i + 1].at.node == e.dest && legs[i + 1].at.edge == (if curve then 1 else 0)
            && legs[i + 1].at.distance == legs[i].at.distance + e.dist)
      && (i + 1 == |legs| < 10 ==> dead || legs[i].at.distance - FirstSensor(track, legs) >= desired)
  {
    if i + 1 < |legs| {
      assert StepAt(track, switches, legs, i);
    }
  }

  /** The route through the nodes of r, nothing reserved, with a detour from every branch
      that the train can go past. */
  ghost predicate PlannedUpTo(track: seq<Node>, switches: seq<SwitchReading>, r: seq<RouteNode>, route: Route, n: nat)
    requires AreSegments(track, r) && |switches| == |track| && n <= |r|
  {
    && |route.primary| == n
    && (forall i :: 0 <= i < n ==> PlannedAt(track, switches, r, route, i))
    && (forall d :: 0 <= d < |route.detours| ==> BlankRow(track, route.detours[d]))
    && (forall i, j :: 0 <= i < j < n && route.primary[j].detour >= 0 ==>
          route.primary[i].detour < route.primary[j].detour)
  }

  ghost predicate PlannedAt(track: seq<Node>, switches: seq<SwitchReading>, r: seq<RouteNode>, route: Route, i: nat)
    requires AreSegments(track, r) && |switches| == |track| && i < |r| && i < |route.primary|
  {
    && route.primary[i] == Leg(r[i], 0, route.primary[i].detour)
    && var length, d := DetourLength(track, r, i), route.primary[i].detour;
    && (length <= 0 ==> d == PRIMARY)
    && (length > 0 ==> 0 <= d < |route.detours| && IsDetour(track, switches, route.detours[d], r[i], length))
  }

  ghost predicate BlankRow(track: seq<Node>, legs: seq<Leg>) {
    forall j :: 0 <= j < |legs| ==>
      IsSegment(track, SegmentOf(legs[j])) && legs[j].reserved == 0 && legs[j].detour == PRIMARY
  }

  lemma DetourBlank(track: seq<Node>, switches: seq<SwitchReading>, legs: seq<Leg>, from: RouteNode, desired: int)
    requires |switches| == |track| && IsDetour(track, switches, legs, from, desired)
    ensures BlankRow(track, legs)
  {
    hide FarEnough, IsSegment, HasEdge, IsNode;
    forall j | 0 <= j < |legs|
      ensures IsSegment(track, SegmentOf(legs[j])) && legs[j].reserved == 0 && legs[j].detour == PRIMARY
    {
      assert j > 0 ==> StepAt(track, switches, legs, j - 1);
    }
  }

  method PlanRoute(track: seq<Node>, switches: seq<SwitchReading>, r: seq<RouteNode>) returns (route: Route)
    requires TrackOk(track) && |switches| == |track| && AreSegments(track, r)
    ensures PlannedUpTo(track, switches, r, route, |r|)
  {
    hide TrackOk, IsDetour, BlankRow, DetourLength;
    var lengths := DetourLengths(track, r);
    route := NO_ROUTE;
    for i := 0 to |r|
      invariant PlannedUpTo(track, switches, r, route, i)
      invariant forall j :: 0 <= j < i ==> route.primary[j].detour < |route.detours|
    {
      ghost var before := route;
      assert IsSegment(track, (r[i].node, r[i].edge));
      if lengths[i] > 0 {
        BranchHasDetour(track, r, i);
        var secondary := AddSecondaryRoute(track, switches, r[i], lengths[i]);
        DetourBlank(track, switches, secondary, r[i], lengths[i]);
        route := Route(route.primary + [Leg(r[i], 0, |route.detours|)], route.detours + [secondary]);
      } else {
        route := route.(primary := route.primary + [Leg(r[i], 0, PRIMARY)]);
      }
      forall j | 0 <= j < i + 1
        ensures PlannedAt(track, switches, r, route, j)
      {
        assert j < i ==> PlannedAt(track, switches, r, before, j);
      }
    }
  }

  lemma BranchHasDetour(track: seq<Node>, r: seq<RouteNode>, i: nat)
    requires AreSegments(track, r) && i < |r| && DetourLength(track, r, i) > 0
    ensures IsNode(track, r[i].node) && track[r[i].node].kind.Branch?
  {
    assert IsSegment(track, (r[i].node, r[i].edge));
  }

  /** The route starts out with nothing reserved. */
  lemma PlannedSound(track: seq<Node>, switches: seq<SwitchReading>, r: seq<RouteNode>, route: Route, c: set<Segment>)
    requires |switches| == |track| && AreSegments(track, r) && PlannedUpTo(track, switches, r, route, |r|)
    ensures TrainSound(track, route, c, false, false)
  {
    hide IsDetour, IsSegment, DetourLength;
    forall d, j | HasLeg(route, d, j)
      ensures var leg := LegAt(route, d, j);
        IsSegment(track, SegmentOf(leg)) && PRIMARY <= leg.detour < |route.detours| && leg.reserved == 0
    {
      if d == PRIMARY {
        assert PlannedAt(track, switches, r, route, j);
      }
    }
  }
}
