/** The route server: it gives trains routes, and reserves the track along them. */
module RouteServers {
  import opened Track
  import opened RouteSearch
  import opened ShortestRoutes
  import opened Reservations
  import opened Detours
  import opened Releases

  datatype ReservationStatus = RsvNone | RsvOnRoute | RsvDestination | RsvHeld

  datatype Position = Position(node: int, offset: int)

  const DEBUG_TRAIN := 9000

  datatype Message =
    | RouteRequest(train: int, pos1: Position, goal: int, requested: int)
    | ReservationRequest(train: int, pos: Position, requested: int)
    | FreeReservation(train: int, sensor: int)
    | ReserveWhereIAm(train: int, sensor: int)
    | ReserveWhereIAmPos(train: int, pos: Position)
    | DebugReserve(node: int, edge: int)
    | DebugFree(node: int, edge: int)
    | Other

  /** What the server learns from elsewhere while it handles a message. */
  datatype Readings = Readings(fwdGoal: int, revGoal: int, reversible: seq<(bool, bool)>, switches: seq<SwitchReading>)

  /** A message that names only places on the track. */
  predicate Proper(track: seq<Node>, m: Message, env: Readings) {
    && 0 <= env.fwdGoal < TRACK_MAX && 0 <= env.revGoal < TRACK_MAX
    && |env.reversible| == |env.switches| == TRACK_MAX
    && (m.ReserveWhereIAm? ==> IsNode(track, m.sensor))
    && (m.ReserveWhereIAmPos? ==> IsNode(track, m.pos.node))
    && (m.DebugReserve? ==> IsSegment(track, (m.node, m.edge)))
    && (m.DebugFree? ==> 0 <= m.node < TRACK_MAX && 0 <= m.edge < 2)
  }

  class RouteServer {
    const track: seq<Node>
    const status: array3<ReservationStatus>
    const trainNumber: array<int>
    const wanted: array<int>
    const lastPos: array<Position>
    const routes: array<Route>
    var numTrains: nat
    // Trains that had a reservation taken away by hand.
    ghost var tampered: set<int>
    // Trains with a release, since they have had their route, that gave up track still counted on.
    ghost var clashed: set<int>

    ghost predicate Wired() {
      && status.Length0 == TRACK_MAX && status.Length1 == 2 && status.Length2 == MAX_TRAINS
      && trainNumber.Length == wanted.Length == lastPos.Length == routes.Length == MAX_TRAINS
      && trainNumber != wanted
      && TrackOk(track)
    }

    ghost function Column(t: int): (c: set<Segment>)
      requires Wired() && 0 <= t < MAX_TRAINS
      reads status
    {
      set n, e | 0 <= n < TRACK_MAX && 0 <= e < 2 && status[n, e, t] == RsvHeld :: (n, e)
    }

    ghost function Holdings(): (table: Table)
      requires Wired()
      reads status
      ensures |table| == MAX_TRAINS
    {
      [Column(0), Column(1), Column(2), Column(3), Column(4)]
    }

    /** A segment is held or not; the other two values are never written. */
    ghost predicate TwoValued()
      requires Wired()
      reads status
    {
      forall n, e, t :: 0 <= n < TRACK_MAX && 0 <= e < 2 && 0 <= t < MAX_TRAINS ==>
        status[n, e, t] == RsvNone || status[n, e, t] == RsvHeld
    }

    /** The columns beyond the trains known so far are empty. */
    ghost predicate Tabled()
      reads this, status
    {
      && Wired() && TwoValued() && numTrains <= MAX_TRAINS
      && forall t :: numTrains <= t < MAX_TRAINS ==> Holdings()[t] == {}
    }

    ghost predicate Valid()
      reads this, status, routes, trainNumber
    {
      && Tabled() && Exclusive(track, Holdings()) && Named(trainNumber[..])
      && forall t :: 0 <= t < MAX_TRAINS ==> TrainSound(track, routes[t], Holdings()[t], t in tampered, t in clashed)
    }

    /** Only the route of train t has changed. */
    ghost predicate Others(t: int, before: seq<Route>)
      reads routes
    {
      |before| == routes.Length && forall u :: 0 <= u < routes.Length && u != t ==> routes[u] == before[u]
    }

    lemma StaysValid(t: int, table: Table, before: seq<Route>)
      requires Tabled() && Named(trainNumber[..]) && 0 <= t < MAX_TRAINS
      requires |table| == MAX_TRAINS && Exclusive(track, table) && Grants(track, table, t, Holdings()[t])
      requires Holdings() == table[t := Holdings()[t]] && Others(t, before)
      requires forall u :: 0 <= u < MAX_TRAINS && u != t ==>
        TrainSound(track, before[u], table[u], u in tampered, u in clashed)
      requires TrainSound(track, routes[t], Holdings()[t], t in tampered, t in clashed)
      ensures Valid()
    {
      hide TrainSound, Holdings, Exclusive, Grants, WellFormed;
      StaysExclusive(track, table, t, Holdings()[t]);
      assert forall u :: 0 <= u < MAX_TRAINS && u != t ==> Holdings()[u] == table[u];
    }

    lemma InTable(n: int, e: int, t: int)
      requires Wired() && 0 <= t < MAX_TRAINS && 0 <= n < TRACK_MAX && 0 <= e < 2
      ensures (n, e) in Holdings()[t] <==> status[n, e, t] == RsvHeld
    {
      assert Holdings()[t] == Column(t);
    }

    lemma InRange(t: int, s: Segment)
      requires Wired() && 0 <= t < MAX_TRAINS && s in Holdings()[t]
      ensures 0 <= s.0 < TRACK_MAX && 0 <= s.1 < 2
    {
      assert Holdings()[t] == Column(t);
    }

    constructor (track: seq<Node>)
      requires TrackOk(track)
      ensures this.track == track && Valid() && numTrains == 0 && tampered == {} && clashed == {}
      ensures fresh(status) && fresh(trainNumber) && fresh(wanted) && fresh(lastPos) && fresh(routes)
      ensures forall t :: 0 <= t < MAX_TRAINS ==> Holdings()[t] == {} && routes[t] == NO_ROUTE && trainNumber[t] == -1
    {
      hide WellFormed, Exclusive, TrainSound, Named, Holdings;
      this.track := track;
      status := new ReservationStatus[TRACK_MAX, 2, MAX_TRAINS]((_, _, _) => RsvNone);
      trainNumber := new int[MAX_TRAINS](_ => -1);
      wanted := new int[MAX_TRAINS](_ => 0);
      lastPos := new Position[MAX_TRAINS](_ => Position(-1, 0));
      routes := new Route[MAX_TRAINS](_ => NO_ROUTE);
      numTrains := 0;
      tampered := {};
      clashed := {};
      new;
      NobodyHolds();
      NothingToCheck(track, Holdings(), trainNumber[..]);
    }

    lemma NobodyHolds()
      requires Wired()
      requires forall n, e, t :: 0 <= n < TRACK_MAX && 0 <= e < 2 && 0 <= t < MAX_TRAINS ==> status[n, e, t] == RsvNone
      ensures forall t :: 0 <= t < MAX_TRAINS ==> Holdings()[t] == {}
    {
      assert forall t :: 0 <= t < MAX_TRAINS ==> Column(t) == {};
    }

    /** The slot of a train number, which is given a slot if it has none. */
    method GetTrainIndex(number: int) returns (t: int)
      requires Valid()
      modifies this`numTrains, trainNumber
      ensures Valid() && old(numTrains) <= numTrains
      ensures t >= 0 ==> t < numTrains && trainNumber[t] == number
      ensures t >= 0 ==> old(trainNumber[t]) == number || old(trainNumber[t]) <= 0
      ensures t >= 0 ==> forall u :: 0 <= u < MAX_TRAINS && u != t ==> trainNumber[u] == old(trainNumber[u])
      ensures t >= 0 && number > 0 ==> forall u :: 0 <= u < MAX_TRAINS && trainNumber[u] == number ==> u == t
      ensures t < 0 <==> forall u :: 0 <= u < MAX_TRAINS ==> old(trainNumber[u]) > 0 && old(trainNumber[u]) != number
      ensures t < 0 ==> trainNumber[..] == old(trainNumber[..])
    {
      hide WellFormed, Exclusive, TrainSound, Holdings;
      t := -1;
      for i := 0 to MAX_TRAINS
        invariant trainNumber[..] == old(trainNumber[..])
        invariant forall u :: 0 <= u < i ==> trainNumber[u] > 0 && trainNumber[u] != number
      {
        if trainNumber[i] == number {
          t := i;
          break;
        } else if trainNumber[i] <= 0 {
          trainNumber[i] := number;
          t := i;
          break;
        }
      }
      if t >= 0 && numTrains < t + 1 {
        numTrains := t + 1;
      }
    }

    /** Writes one entry of the table. */
    method SetStatus(node: int, edge: int, t: int, s: ReservationStatus)
      requires Wired() && TwoValued() && 0 <= node < TRACK_MAX && 0 <= edge < 2 && 0 <= t < MAX_TRAINS
      requires s.RsvNone? || s.RsvHeld?
      modifies status
      ensures TwoValued()
      ensures var c := old(Holdings())[t];
        Holdings() == old(Holdings())[t := if s.RsvHeld? then c + {(node, edge)} else c - {(node, edge)}]
    {
      hide WellFormed;
      status[node, edge, t] := s;
      assert Column(t) == if s.RsvHeld? then old(Column(t)) + {(node, edge)} else old(Column(t)) - {(node, edge)};
      forall u | 0 <= u < MAX_TRAINS && u != t
        ensures Column(u) == old(Column(u))
      {
      }
      assert forall u :: 0 <= u < MAX_TRAINS ==> Holdings()[u] == Column(u) && old(Holdings())[u] == old(Column(u));
    }

    method PrimaryIndex(legs: seq<Leg>, node: int) returns (index: int)
      ensures index == if FirstAt(legs, node) < |legs| then FirstAt(legs, node) else -1
    {
      index := 0;
      while index < |legs| && legs[index].at.node != node
        invariant 0 <= index <= |legs| && forall j :: 0 <= j < index ==> legs[j].at.node != node
      {
        index := index + 1;
      }
      assert index < |legs| ==> !(FirstAt(legs, node) < index) && !(index < FirstAt(legs, node));
      if index >= |legs| {
        return -1;
      }
    }

    /** Whether no other train holds the segment or its mirror. */
    method CanReserve(t: int, node: int, edge: int) returns (can: bool)
      requires Tabled() && 0 <= t < MAX_TRAINS && IsSegment(track, (node, edge))
      ensures can <==> Free(track, Holdings(), t, (node, edge))
    {
      hide WellFormed, Holdings;
      ghost var s := (node, edge);
      var mirror := (node, edge);
      if !track[node].kind.Exit? {
        mirror := MirrorOf(track, (node, edge));
      }
      assert forall b :: Shares(track, s, b) <==> b == s || b == mirror;
      for i := 0 to numTrains
        invariant forall u, b {:trigger b in Holdings()[u]} :: 0 <= u < i && u != t && b in Holdings()[u] ==>
          !Shares(track, s, b)
      {
        InTable(node, edge, i);
        InTable(mirror.0, mirror.1, i);
        if i != t {
          if status[node, edge, i] == RsvHeld {
            return false;
          }
          if !track[node].kind.Exit? && status[mirror.0, mirror.1, i] == RsvHeld {
            return false;
          }
        }
      }
      return true;
    }

    /** Whether another train is in the way, on this edge or on the branch's other one. */
    method ReserveConflict(t: int, node: int, edge: int) returns (conflict: bool)
      requires Tabled() && 0 <= t < MAX_TRAINS && HasEdge(track, node, edge)
      ensures conflict <==>
        !Free(track, Holdings(), t, (node, edge)) ||
        (track[node].kind.Branch? && !Free(track, Holdings(), t, (node, 1 - edge)))
    {
      var can := CanReserve(t, node, edge);
      conflict := !can;
      if !conflict && track[node].kind.Branch? {
        can := CanReserve(t, node, 1 - edge);
        conflict := !can;
      }
    }

    /** Takes the segment if it is free. */
    method Reserve(t: int, node: int, edge: int) returns (can: bool)
      requires Tabled() && 0 <= t < numTrains && IsSegment(track, (node, edge))
      modifies status
      ensures Tabled()
      ensures can <==> Free(track, old(Holdings()), t, (node, edge))
      ensures Holdings() == if can then old(Holdings())[t := old(Holdings())[t] + {(node, edge)}] else old(Holdings())
    {
      hide WellFormed, Holdings, Free;
      can := CanReserve(t, node, edge);
      if can {
        SetStatus(node, edge, t, RsvHeld);
      }
    }

    /** Raises the reserved length of a leg, taking its segment, unless it is long enough
        already or another train is in the way. */
    method ReserveForNode(t: int, d: int, j: int, length: int) returns (ok: bool)
      requires Tabled() && 0 <= t < numTrains && RouteOk(track, routes[t]) && HasLeg(routes[t], d, j)
      modifies status, routes
      ensures Tabled() && Others(t, old(routes[..]))
      ensures var leg := old(LegAt(routes[t], d, j));
        var raised := leg.reserved < length && ok;
        && (ok <==> leg.reserved >= length || Free(track, old(Holdings()), t, SegmentOf(leg)))
        && routes[t] == (if raised then WithReserved(old(routes[t]), d, j, length) else old(routes[t]))
        && Holdings() == if raised then old(Holdings())[t := old(Holdings())[t] + {SegmentOf(leg)}] else old(Holdings())
    {
      hide WellFormed, Holdings, Free;
      var leg := LegAt(routes[t], d, j);
      if leg.reserved >= length {
        return true;
      }
      ok := Reserve(t, leg.at.node, leg.at.edge);
      if ok {
        routes[t] := WithReserved(routes[t], d, j, length);
      }
    }

    /** Reserves along the detour that starts at a leg of the primary route. */
    method GiveSecondaryReservations(t: int, primaryIndex: int, distance: int)
      requires Tabled() && 0 <= t < numTrains && RouteOk(track, routes[t]) && HasLeg(routes[t], PRIMARY, primaryIndex)
      modifies status, routes
      ensures Tabled() && Others(t, old(routes[..]))
      ensures Holdings() == old(Holdings())[t := Holdings()[t]]
      ensures Given(track, old(Holdings()), t, old(routes[t]), routes[t], Holdings()[t])
      ensures RouteOk(track, routes[t]) && routes[t].primary == old(routes[t].primary)
      ensures var d := old(LegAt(routes[t], PRIMARY, primaryIndex)).detour;
        d >= 0 ==>
          && d < |routes[t].detours| && AreLegs(track, routes[t].detours[d])
          && DetourGiven(track, old(Holdings()), t, routes[t].detours[d], distance)
      ensures OnlyDetour(track, old(routes[t]), routes[t], old(LegAt(routes[t], PRIMARY, primaryIndex)).detour,
                         distance)
    {
      hide WellFormed, Holdings, Free, Given, DetourGiven, GivenSoFar, AreLegs, RouteOk, WithReserved, Span,
        OnlyDetour, OnlyFirst;
      ghost var h0, r0 := Holdings(), routes[t];
      GivenNothing(track, h0, t, r0);
      LegFacts(track, r0, PRIMARY, primaryIndex);
      var d := LegAt(routes[t], PRIMARY, primaryIndex).detour;
      NothingElse(track, r0, d, distance);
      if d < 0 {
        return;
      }
      ghost var row := r0.detours[d];
      NoneGivenYet(track, r0, d, distance);
      var i, dist := 0, 0;
      while i < |routes[t].detours[d]| && dist < distance
        invariant 0 <= i <= |row| && AreLegs(track, row) && dist == Span(track, row, i)
        invariant Tabled() && Others(t, old(routes[..]))
        invariant Holdings() == h0[t := Holdings()[t]]
        invariant RouteOk(track, r0) && Given(track, h0, t, r0, routes[t], Holdings()[t])
        invariant RouteOk(track, routes[t]) && routes[t].primary == r0.primary && |routes[t].detours| == |r0.detours|
        invariant |routes[t].detours[d]| == |row| && GivenSoFar(track, row, routes[t].detours[d], i, distance)
        invariant OnlyFirst(r0, routes[t], d, i)
        decreases |row| - i
      {
        ghost var r2, c := routes[t], Holdings()[t];
        assert HasLeg(r2, d, i);
        LegFacts(track, r2, d, i);
        SoFarFacts(track, row, r2.detours[d], i, distance);
        var leg := routes[t].detours[d][i];
        dist := dist + LengthOf(track, leg);
        if track[leg.at.node].kind.Exit? {
          DetourReached(track, h0, t, row, r2.detours[d], i, distance);
          FirstIsWithin(track, r0, r2, d, i, distance);
          return;
        }
        if leg.reserved <= 0 {
          var ok := ReserveForNode(t, d, i, LengthOf(track, leg));
          GivenNext(track, h0, t, r0, r2, c, d, i, ok, routes[t], Holdings()[t]);
          if !ok {
            DetourReached(track, h0, t, row, r2.detours[d], i, distance);
            FirstIsWithin(track, r0, r2, d, i, distance);
            return;
          }
        }
        RouteStays(track, r2, routes[t]);
        GivenSame(track, h0, t, r0, r2, c);
        GivenFurther(track, row, r2, routes[t], d, i, distance);
        OneMoreChanged(r0, r2, routes[t], d, i, LengthOf(track, leg));
        i := i + 1;
      }
      DetourReached(track, h0, t, row, routes[t].detours[d], i, distance);
      FirstIsWithin(track, r0, routes[t], d, i, distance);
    }

    /** Reserves the train's route from where it is: legs and their detours, until it can
        go as far as it wants to before stopping, or somebody is in the way. */
    method GiveReservations(t: int)
      requires Valid() && 0 <= t < numTrains
      // With no route, the source would read in front of the array.
      requires |routes[t].primary| > 0 || wanted[t] <= -lastPos[t].offset
      modifies status, routes
      ensures Valid() && Others(t, old(routes[..])) && Holdings() == old(Holdings())[t := Holdings()[t]]
      ensures Advanced(track, old(Holdings()), t, old(routes[t]), routes[t], Holdings()[t], lastPos[t].node,
                       -lastPos[t].offset, wanted[t])
    {
      hide WellFormed, Holdings, Free, Given, GivenUpTo, DetoursGiven, DetoursWithin, PrimaryGiven, AreLegs, RouteOk,
        WithReserved, Span, Exclusive, Simple, Backed;
      ghost var h0, r0 := Holdings(), routes[t];
      assert forall u :: 0 <= u < MAX_TRAINS ==> TrainSound(track, routes[u], h0[u], u in tampered, u in clashed);
      var i := PrimaryIndex(routes[t].primary, lastPos[t].node);
      if i < 0 {
        if |routes[t].primary| == 0 {
          NothingToGive(track, h0, t, r0, StartOf(r0, lastPos[t].node), -lastPos[t].offset, wanted[t]);
          return;
        }
        LegFacts(track, r0, PRIMARY, 0);
        i := routes[t].primary[0].at.node;
      }
      assert i == StartOf(r0, lastPos[t].node);
      ghost var stop := GiveFrom(t, i, -lastPos[t].offset);
      assert AdvancedTo(track, h0, t, r0, routes[t], i, stop, -lastPos[t].offset, wanted[t]);
      GivenSound(track, h0, t, r0, routes[t], Holdings()[t], t in tampered, t in clashed);
      StaysValid(t, h0, old(routes[..]));
    }

    /** The loop of giving, from leg `i` on. */
    method GiveFrom(t: int, from: nat, offset: int) returns (ghost stop: nat)
      requires Tabled() && 0 <= t < numTrains && RouteOk(track, routes[t])
      modifies status, routes
      ensures Tabled() && Others(t, old(routes[..])) && Holdings() == old(Holdings())[t := Holdings()[t]]
      ensures RouteOk(track, routes[t]) && AreLegs(track, old(routes[t]).primary)
      ensures Given(track, old(Holdings()), t, old(routes[t]), routes[t], Holdings()[t])
      ensures GivenUpTo(track, old(Holdings()), t, old(routes[t]).primary, from, stop, offset, wanted[t])
      ensures PrimaryGiven(track, old(routes[t]).primary, routes[t].primary, from, stop)
      ensures DetoursGiven(track, old(Holdings()), t, old(routes[t]), routes[t], from, stop, offset, wanted[t])
      ensures DetoursWithin(track, old(routes[t]), routes[t], from, stop, offset, wanted[t])
    {
      hide WellFormed, Holdings, Free, Given, DetourGiven, DetoursGiven, DetoursWithin, OnlyDetour, PrimaryGiven,
        AreLegs, RouteOk, WithReserved, Span, IsSegment, AllPass, SameLegs;
      ghost var h0, r0 := Holdings(), routes[t];
      GivenNothing(track, h0, t, r0);
      NothingGivenYet(track, h0, t, r0, from, offset, wanted[t]);
      NothingBeyond(track, r0, from, offset, wanted[t]);
      var i: nat, dist := from, offset;
      while i < |routes[t].primary| && dist < wanted[t]
        invariant from <= i && AreLegs(track, r0.primary) && |routes[t].primary| == |r0.primary|
        invariant from <= i <= |r0.primary| ==>
          dist == offset + Span(track, r0.primary, i) - Span(track, r0.primary, from)
        invariant Tabled() && Others(t, old(routes[..])) && Holdings() == h0[t := Holdings()[t]]
        invariant RouteOk(track, r0) && Given(track, h0, t, r0, routes[t], Holdings()[t]) && RouteOk(track, routes[t])
        invariant PrimaryGiven(track, r0.primary, routes[t].primary, from, i)
        invariant DetoursGiven(track, h0, t, r0, routes[t], from, i, offset, wanted[t])
        invariant SameLegs(r0, routes[t]) && DetoursWithin(track, r0, routes[t], from, i, offset, wanted[t])
        invariant AllPass(track, h0, t, r0.primary, from, i, offset, wanted[t])
        invariant from < i <= |r0.primary| ==> !r0.primary[i - 1].at.reverseHere
        decreases |r0.primary| - i
      {
        ghost var r2, c2 := routes[t], Holdings()[t];
        GivenLeg(track, r0.primary, r2.primary, from, i);
        var leg := routes[t].primary[i];
        var ok := ReserveForNode(t, PRIMARY, i, LengthOf(track, leg));
        ghost var r3, c3 := routes[t], Holdings()[t];
        assert Holdings() == h0[t := c3];
        GivenNext(track, h0, t, r0, r2, c2, PRIMARY, i, ok, r3, c3);
        if !ok {
          return i;
        }
        OneMorePasses(track, h0, t, r0.primary, from, i, offset, wanted[t]);
        PrimaryFurther(track, h0, t, r0, r2, r3, from, i, offset, wanted[t]);
        PrimaryWithin(track, r0, r2, r3, from, i, offset, wanted[t]);
        GivenSame(track, h0, t, r0, r3, c3);
        LegFacts(track, r0, PRIMARY, i);
        GivenNothing(track, h0[t := c3], t, r3);
        if leg.detour >= 0 {
          GiveSecondaryReservations(t, i, wanted[t] - dist);
          GivenTransitive(track, h0, t, r0, r3, c3, routes[t], Holdings()[t]);
        }
        GivenSame(track, h0[t := c3], t, r3, routes[t], Holdings()[t]);
        DetoursFurther(track, h0, t, r0, r3, c3, routes[t], Holdings()[t], from, i, offset, wanted[t]);
        WithinFurther(track, r0, r3, routes[t], from, i, i + 1, offset, wanted[t]);
        GivenSame(track, h0, t, r0, routes[t], Holdings()[t]);
        dist := dist + LengthOf(track, leg);
        i := i + 1;
        if leg.at.reverseHere {
          return i;
        }
      }
      return i;
    }

    /** Gives up the detour that starts at a leg of the primary route. */
    method ReleaseSecondaryReservations(t: int, primaryIndex: int)
      requires Tabled() && 0 <= t < numTrains && RouteOk(track, routes[t]) && HasLeg(routes[t], PRIMARY, primaryIndex)
      modifies status, routes
      ensures Tabled() && Others(t, old(routes[..])) && RouteOk(track, routes[t])
      ensures var r, d := old(routes[t]), old(LegAt(routes[t], PRIMARY, primaryIndex)).detour;
        if d < 0 then routes[t] == r && Holdings() == old(Holdings())
        else d < |r.detours| && RowReleased(r, routes[t], d, |r.detours[d]|) &&
             Holdings() == old(Holdings())[t := old(Holdings())[t] - Counted(r, d)]
    {
      hide WellFormed, Holdings, RouteOk, RowReleased, CountedBefore, Counted, WithReserved, TwoValued;
      ghost var h0, r0 := Holdings(), routes[t];
      LegFacts(track, r0, PRIMARY, primaryIndex);
      var d := LegAt(routes[t], PRIMARY, primaryIndex).detour;
      if d < 0 {
        return;
      }
      RowReleaseStarts(r0, d);
      assert h0[t] - {} == h0[t];
      var i := 0;
      while i < |routes[t].detours[d]|
        invariant |routes[t].detours| == |r0.detours| && |routes[t].detours[d]| == |r0.detours[d]|
        invariant 0 <= i <= |r0.detours[d]| && RouteOk(track, routes[t])
        invariant Tabled() && Others(t, old(routes[..]))
        invariant Holdings() == h0[t := h0[t] - CountedBefore(r0, d, i)] && RowReleased(r0, routes[t], d, i)
        decreases |r0.detours[d]| - i
      {
        ghost var r2 := routes[t];
        assert HasLeg(r2, d, i);
        LegFacts(track, r2, d, i);
        var leg := routes[t].detours[d][i];
        if leg.reserved > 0 {
          routes[t] := WithReserved(routes[t], d, i, 0);
          SetStatus(leg.at.node, leg.at.edge, t, RsvNone);
          RouteStays(track, r2, routes[t]);
        }
        RowReleaseNext(r0, r2, routes[t], d, i);
        ghost var before := CountedBefore(r0, d, i);
        assert h0[t] - before - {SegmentOf(leg)} == h0[t] - (before + {SegmentOf(leg)});
        i := i + 1;
      }
    }

    /** Sets a mark for every segment of a row. */
    method MarkRow(onRoute: array<bool>, legs: seq<Leg>)
      requires AreLegs(track, legs) && |track| == TRACK_MAX && onRoute.Length == 2 * TRACK_MAX
      modifies onRoute
      ensures forall x :: 0 <= x < onRoute.Length ==> (onRoute[x] <==> old(onRoute[x]) || MarkedIn(legs, x))
    {
      for i := 0 to |legs|
        invariant forall x :: 0 <= x < onRoute.Length ==> (onRoute[x] <==> old(onRoute[x]) || MarkedIn(legs[..i], x))
      {
        assert IsSegment(track, SegmentOf(legs[i]));
        onRoute[MarkOf(SegmentOf(legs[i]))] := true;
        OneMoreMark(legs, i);
      }
      assert legs[..|legs|] == legs;
    }

    method MarkRoute(t: int) returns (onRoute: array<bool>)
      requires Wired() && 0 <= t < MAX_TRAINS && RouteOk(track, routes[t])
      ensures fresh(onRoute) && onRoute.Length == 2 * TRACK_MAX
      ensures forall x :: 0 <= x < onRoute.Length ==>
        (onRoute[x] <==> MarkedBefore(routes[t], |routes[t].detours| + 1, x))
    {
      hide WellFormed, RouteOk, MarkedIn;
      ghost var r := routes[t];
      onRoute := new bool[2 * TRACK_MAX];
      for i := 0 to 2 * TRACK_MAX
        invariant forall x :: 0 <= x < i ==> !onRoute[x]
      {
        onRoute[i] := false;
      }
      RowLegs(track, r, PRIMARY);
      MarkRow(onRoute, routes[t].primary);
      for i := 0 to |routes[t].detours|
        invariant routes[t] == r
        invariant forall x :: 0 <= x < onRoute.Length ==> (onRoute[x] <==> MarkedBefore(r, i + 1, x))
      {
        RowLegs(track, r, i);
        MarkRow(onRoute, routes[t].detours[i]);
        assert Row(r, i) == r.detours[i];
      }
    }

    /** Gives up whatever is not on the train's route. */
    method ClearExtraReservations(t: int)
      requires Tabled() && 0 <= t < numTrains && RouteOk(track, routes[t])
      modifies status
      ensures Tabled() && Holdings() == old(Holdings())[t := OnlyOnRoute(routes[t], old(Holdings())[t])]
    {
      hide WellFormed, Holdings, RouteOk, MarkedBefore, OnRoute;
      ghost var h0, r := Holdings(), routes[t];
      var onRoute := MarkRoute(t);
      forall s | s in h0[t]
        ensures 0 <= MarkOf(s) < 2 * TRACK_MAX
      {
        InRange(t, s);
      }
      for i := 0 to 2 * TRACK_MAX
        invariant Tabled() && Holdings() == h0[t := Holdings()[t]]
        invariant forall s :: s in Holdings()[t] <==> s in h0[t] && (MarkOf(s) >= i || OnRoute(r, s))
        modifies status
      {
        var node, edge := i % TRACK_MAX, i / TRACK_MAX;
        MarkedOnRoute(track, r, (node, edge));
        InTable(node, edge, t);
        forall s | s in Holdings()[t]
          ensures MarkOf(s) == i ==> s == (node, edge)
        {
          InRange(t, s);
        }
        if !onRoute[i] && status[node, edge, t] == RsvHeld {
          SetStatus(node, edge, t, RsvNone);
        }
      }
      assert Holdings()[t] == OnlyOnRoute(r, h0[t]);
    }

    /** Gives up what the train has passed: its primary route as far as `node`, the
        detours from there, and whatever is not on its route at all. */
    method ReleaseReservations(t: int, node: int)
      requires Valid() && 0 <= t < numTrains
      modifies this`clashed, status, routes
      ensures Valid() && Others(t, old(routes[..]))
      ensures var r := old(routes[t]);
        var c, n := OnlyOnRoute(r, old(Holdings())[t]), FirstAt(r.primary, node);
        && ReleasedTo(r, c, n, routes[t])
        && clashed == (if Clashes(r, c, n) then old(clashed) + {t} else old(clashed))
        && Holdings() == old(Holdings())[t := c - GivenUp(r, c, n)]
    {
      hide WellFormed, Holdings, RouteOk, ReleasedTo, GivenUp, Clashes, Exclusive, Named, WithReserved, OnlyOnRoute,
           TrainSound, TwoValued;
      ghost var h0, r0 := Holdings(), routes[t];
      assert forall u :: 0 <= u < MAX_TRAINS ==> TrainSound(track, routes[u], h0[u], u in tampered, u in clashed);
      SoundRoute(track, r0, h0[t], t in tampered, t in clashed);
      ClearExtraReservations(t);
      ReleaseFrom(t, node);
      ReleasedSound(track, r0, h0[t], FirstAt(r0.primary, node), routes[t], t in tampered, t in clashed);
      if Clashes(r0, OnlyOnRoute(r0, h0[t]), FirstAt(r0.primary, node)) {
        clashed := clashed + {t};
      }
      assert Grants(track, h0, t, Holdings()[t]);
      StaysValid(t, h0, old(routes[..]));
    }

    /** The loop of releasing. */
    method ReleaseFrom(t: int, node: int)
      requires Tabled() && 0 <= t < numTrains && RouteOk(track, routes[t])
      modifies status, routes
      ensures Tabled() && Others(t, old(routes[..]))
      ensures var r, c := old(routes[t]), old(Holdings())[t];
        var n := FirstAt(r.primary, node);
        && ReleasedTo(r, c, n, routes[t])
        && Holdings() == old(Holdings())[t := c - GivenUp(r, c, n)]
    {
      hide WellFormed, Holdings, RouteOk, ReleasedTo, GivenUp, Counted, RowReleased, WithReserved, TwoValued;
      ghost var h0, r0 := Holdings(), routes[t];
      ghost var c := h0[t];
      ReleaseStarts(r0, c);
      var i := 0;
      while i < |routes[t].primary|
        invariant 0 <= i <= |r0.primary| == |routes[t].primary| && RouteOk(track, routes[t])
        invariant Tabled() && Others(t, old(routes[..]))
        invariant ReleasedTo(r0, c, i, routes[t]) && Holdings() == h0[t := c - GivenUp(r0, c, i)]
        invariant forall j :: 0 <= j < i ==> r0.primary[j].at.node != node
        decreases |r0.primary| - i
      {
        ghost var r2, gone := routes[t], GivenUp(r0, c, i);
        NextLeg(r0, c, i, r2);
        LegFacts(track, r2, PRIMARY, i);
        var leg := routes[t].primary[i];
        ghost var s := SegmentOf(leg);
        if leg.at.node == node {
          assert FirstAt(r0.primary, node) == i;
          return;
        }
        InTable(leg.at.node, leg.at.edge, t);
        Unset(leg.at.node, leg.at.edge, t);
        if leg.reserved > 0 || status[leg.at.node, leg.at.edge, t] != RsvNone {
          assert Gives(r0, c, i);
          routes[t] := WithReserved(routes[t], PRIMARY, i, 0);
          SetStatus(leg.at.node, leg.at.edge, t, RsvNone);
          assert c - gone - {s} == c - (gone + {s});
          RouteStays(track, r2, routes[t]);
          ghost var r3 := routes[t];
          if leg.detour >= 0 {
            ReleaseSecondaryReservations(t, i);
            ghost var more := Counted(r3, leg.detour);
            assert c - (gone + {s}) - more == c - (gone + {s} + more);
            DetourGivenUp(r0, c, i, r2, r3, routes[t]);
            StillAsLong(r3, routes[t], leg.detour);
          } else {
            LegGiven(r0, c, i, r2, r3);
          }
        } else {
          LegKept(r0, c, i, r2);
        }
        i := i + 1;
      }
      assert FirstAt(r0.primary, node) == i;
    }

    lemma Unset(n: int, e: int, t: int)
      requires Wired() && TwoValued() && 0 <= t < MAX_TRAINS && 0 <= n < TRACK_MAX && 0 <= e < 2
      ensures status[n, e, t] != RsvNone <==> status[n, e, t] == RsvHeld
    {
    }

    /** Gives up everything the train holds. */
    method ClearAllReservations(t: int)
      requires Valid() && 0 <= t < numTrains
      modifies this`tampered, this`clashed, status, routes
      ensures Valid() && Others(t, old(routes[..])) && tampered == old(tampered) - {t} && clashed == old(clashed) - {t}
      ensures Holdings() == old(Holdings())[t := {}] && Cleared(old(routes[t]), routes[t])
    {
      hide WellFormed, Holdings, RouteOk, Exclusive, Named, WithReserved, TrainSound;
      ghost var h0, r0 := Holdings(), routes[t];
      assert forall u :: 0 <= u < MAX_TRAINS ==> TrainSound(track, routes[u], h0[u], u in tampered, u in clashed);
      SoundRoute(track, r0, h0[t], t in tampered, t in clashed);
      forall s | s in Holdings()[t]
        ensures s.0 >= 0
      {
        InRange(t, s);
      }
      for i := 0 to TRACK_MAX
        invariant Tabled() && Holdings() == h0[t := Holdings()[t]]
        invariant forall s :: s in Holdings()[t] ==> s.0 >= i
        modifies status
      {
        forall s | s in Holdings()[t]
          ensures s.0 == i ==> s == (i, 0) || s == (i, 1)
        {
          InRange(t, s);
        }
        SetStatus(i, 0, t, RsvNone);
        SetStatus(i, 1, t, RsvNone);
      }
      forall s | s in Holdings()[t]
        ensures s.0 < TRACK_MAX
      {
        InRange(t, s);
      }
      assert Holdings()[t] == {};
      ClearRow(t, r0, PRIMARY);
      for d := 0 to |routes[t].detours|
        invariant Others(t, old(routes[..])) && ClearedUpTo(r0, routes[t], d, 0)
        modifies routes
      {
        ClearRow(t, r0, d);
      }
      tampered := tampered - {t};
      clashed := clashed - {t};
      ClearedSound(track, r0, routes[t], Holdings()[t]);
      StaysValid(t, h0, old(routes[..]));
    }

    method ClearRow(t: int, ghost r: Route, d: int)
      requires Wired() && 0 <= t < MAX_TRAINS && PRIMARY <= d < |r.detours| && |routes[t].detours| == |r.detours|
      requires d == PRIMARY ==> r == routes[t]
      requires d > PRIMARY ==> ClearedUpTo(r, routes[t], d, 0)
      modifies routes
      ensures Others(t, old(routes[..])) && ClearedUpTo(r, routes[t], d + 1, 0)
    {
      hide WellFormed, WithReserved;
      for i := 0 to |Row(routes[t], d)|
        invariant Others(t, old(routes[..])) && ClearedUpTo(r, routes[t], d, i) && |routes[t].detours| == |r.detours|
        invariant |Row(routes[t], d)| == |old(Row(routes[t], d))|
      {
        assert HasLeg(routes[t], d, i);
        ghost var r2 := routes[t];
        routes[t] := WithReserved(routes[t], d, i, 0);
        SameSizes(r2, routes[t]);
      }
    }

    /** Takes what is free of the track from a node on, as far as a train is long. */
    method ReserveAlong(t: int, switches: seq<SwitchReading>, from: int, fromEdge: int, offset: int, both: bool)
      requires Valid() && 0 <= t < numTrains && |switches| == TRACK_MAX && IsSegment(track, (from, fromEdge))
      modifies status
      ensures Valid()
      ensures Holdings() == old(Holdings())[
        t := Taking(track, old(Holdings()), t, Under(track, switches, from, fromEdge, offset, both))]
    {
      hide WellFormed, Holdings, Free, Exclusive, Named, Taking, TrainSound, Grants, Under;
      ghost var h0 := Holdings();
      assert forall u :: 0 <= u < MAX_TRAINS ==> TrainSound(track, routes[u], h0[u], u in tampered, u in clashed);
      ghost var passed: set<Segment> := {};
      TakingNothing(track, h0, t);
      var node, edge, len := from, fromEdge, offset;
      while len < TRAIN_LENGTH && !track[node].kind.Exit?
        invariant IsSegment(track, (node, edge)) && Tabled()
        invariant Holdings() == h0[t := Taking(track, h0, t, passed)]
        invariant passed + Under(track, switches, node, edge, len, both) ==
                  Under(track, switches, from, fromEdge, offset, both)
        decreases if len < TRAIN_LENGTH then TRAIN_LENGTH - len else 0
      {
        UnderStep(track, switches, node, edge, len, both);
        ghost var before, rest := passed, Under(track, switches, node, edge, len, both);
        if both && track[node].kind.Branch? {
          passed := Take(t, h0, passed, node, 0);
          passed := Take(t, h0, passed, node, 1);
        } else {
          passed := Take(t, h0, passed, node, edge);
        }
        assert passed == before + Standing(track, node, edge, both);
        len := len + Dist(track, node, edge);
        node := Dest(track, node, edge);
        edge := ExpectedEdge(track, switches, node);
        assert before + rest == passed + Under(track, switches, node, edge, len, both);
      }
      UnderEnds(track, switches, node, edge, len, both);
      assert passed + {} == passed;
      TakingSound(track, h0, t, routes[t], passed, t in tampered, t in clashed);
      StaysValid(t, h0, routes[..]);
    }

    method Take(t: int, ghost table: Table, ghost passed: set<Segment>, node: int,
                edge: int) returns (ghost more: set<Segment>)
      requires Tabled() && 0 <= t < numTrains && IsSegment(track, (node, edge)) && |table| == MAX_TRAINS
      requires Holdings() == table[t := Taking(track, table, t, passed)]
      modifies status
      ensures Tabled() && more == passed + {(node, edge)}
      ensures Holdings() == table[t := Taking(track, table, t, more)]
    {
      hide WellFormed, Holdings, Free, Taking;
      more := passed + {(node, edge)};
      TakingMore(track, table, t, passed, (node, edge));
      var _ := Reserve(t, node, edge);
    }

    /** Takes the track on both sides of a position. */
    method ReservePosition(t: int, switches: seq<SwitchReading>, pos: Position)
      requires Valid() && 0 <= t < numTrains && |switches| == TRACK_MAX && IsNode(track, pos.node)
      modifies status
      ensures Valid()
      ensures Holdings() == AroundPosition(track, old(Holdings()), t, switches, pos)
    {
      hide WellFormed, Holdings, Taking, Under, ReversePosition, Exclusive, TrainSound, Named;
      ReserveAlong(t, switches, pos.node, ExpectedEdge(track, switches, pos.node), -pos.offset, false);
      var back := ReversePosition(track, switches, pos);
      ReserveAlong(t, switches, back.0, back.1, -back.2, false);
    }

    /** Takes the track on both sides of a sensor, and behind it both ways at branches. */
    method ReservePositionSensor(t: int, switches: seq<SwitchReading>, sensor: int)
      requires Valid() && 0 <= t < numTrains && |switches| == TRACK_MAX && IsNode(track, sensor)
      modifies status
      ensures Valid()
      ensures Holdings() == AroundSensor(track, old(Holdings()), t, switches, sensor)
    {
      hide Holdings, Taking, Under, Exclusive, TrainSound, Named;
      assert ReverseOk(track, sensor);
      ReserveAlong(t, switches, sensor, 0, 0, false);
      ReserveAlong(t, switches, track[sensor].reverse, 0, 0, true);
    }

    /** Which edges would cost extra, for every node at once. */
    method Conflicts(t: int) returns (conflict: seq<(bool, bool)>)
      requires Tabled() && 0 <= t < MAX_TRAINS
      ensures AreConflicts(track, Holdings(), t, conflict)
    {
      hide WellFormed, Holdings, Free;
      conflict := [];
      for u := 0 to TRACK_MAX
        invariant |conflict| == u
        invariant forall v :: 0 <= v < u ==> ConflictsAt(track, Holdings(), t, v, conflict[v])
      {
        var ahead, curved := false, false;
        if HasEdge(track, u, 0) {
          ahead := ReserveConflict(t, u, 0);
        }
        if HasEdge(track, u, 1) {
          curved := ReserveConflict(t, u, 1);
        }
        conflict := conflict + [(ahead, curved)];
      }
    }

    /** Gives the train a new route, if one is found. */
    method NewRoute(t: int, start: int, fwdGoal: int, revGoal: int, reversible: seq<(bool, bool)>,
                    switches: seq<SwitchReading>)
      returns (length: int, forward: bool, ghost q: Query)
      requires Valid() && 0 <= t < numTrains && IsNode(track, start)
      requires 0 <= fwdGoal < TRACK_MAX && 0 <= revGoal < TRACK_MAX && |reversible| == |switches| == TRACK_MAX
      modifies this`tampered, this`clashed, routes
      ensures Valid() && Others(t, old(routes[..])) && tampered <= old(tampered) && clashed <= old(clashed)
      ensures IsAnswer(track, Holdings(), t, start, Readings(fwdGoal, revGoal, reversible, switches),
                       old(routes[t]), routes[t], q, length, forward)
    {
      hide WellFormed, Holdings, Exclusive, Named, TrainSound, AreConflicts, IsRoute, RouteCost, IsWalk, WalkCost,
        PlannedUpTo;
      ghost var h0 := Holdings();
      assert forall u :: 0 <= u < MAX_TRAINS ==> TrainSound(track, routes[u], h0[u], u in tampered, u in clashed);
      var conflict := Conflicts(t);
      ConflictsFit(track, h0, t, conflict);
      var query := Query(track, start, fwdGoal, revGoal, REVERSE_COST, RESERVED_COST, conflict, reversible);
      q := query;
      var route := new RouteNode[STATES];
      var size: nat;
      length, forward, size := ShortestRoute(query, route);
      if length == INT_MAX {
        return;
      }
      RouteSegments(q, route[..size], if forward then fwdGoal else revGoal);
      var planned := PlanRoute(track, switches, route[..size]);
      routes[t] := planned;
      tampered := tampered - {t};
      clashed := clashed - {t};
      PlannedNodes(track, switches, route[..size], planned);
      PlannedSound(track, switches, route[..size], planned, h0[t]);
      GrantsSame(track, h0, t);
      StaysValid(t, h0, old(routes[..]));
    }

    /** Takes a reservation away by hand. */
    method FreeReservationByHand(t: int, node: int, edge: int)
      requires Valid() && 0 <= t < numTrains && 0 <= node < TRACK_MAX && 0 <= edge < 2
      modifies this`tampered, status
      ensures Valid() && tampered == old(tampered) + {t}
      ensures Holdings() == old(Holdings())[t := old(Holdings())[t] - {(node, edge)}]
      ensures Backed(routes[t], old(Holdings())[t]) ==>
        (Backed(routes[t], Holdings()[t]) <==>
          forall d, j :: HasLeg(routes[t], d, j) && LegAt(routes[t], d, j).reserved > 0 ==>
            SegmentOf(LegAt(routes[t], d, j)) != (node, edge))
    {
      hide WellFormed, Holdings, Exclusive, Named, IsSegment, HasLeg;
      ghost var h0 := Holdings();
      SetStatus(node, edge, t, RsvNone);
      tampered := tampered + {t};
      StaysValid(t, h0, routes[..]);
    }

    method ReserveByHand(t: int, node: int, edge: int) returns (can: bool)
      requires Valid() && 0 <= t < numTrains && IsSegment(track, (node, edge))
      modifies status
      ensures Valid()
      ensures can <==> Free(track, old(Holdings()), t, (node, edge))
      ensures Holdings() == if can then old(Holdings())[t := old(Holdings())[t] + {(node, edge)}] else old(Holdings())
    {
      hide WellFormed, Holdings, Exclusive, Named, IsSegment, HasLeg, Free;
      ghost var h0 := Holdings();
      can := Reserve(t, node, edge);
      StaysValid(t, h0, routes[..]);
    }

    ghost predicate Served(u: int)
      requires Wired() && 0 <= u < MAX_TRAINS
      reads this, status, routes, wanted, lastPos
    {
      wanted[u] > 0 && |routes[u].primary| > 0 ==>
        Satisfied(track, Holdings(), u, routes[u], lastPos[u].node, -lastPos[u].offset, wanted[u])
    }

    /** Every train with a route that wants to go on is given what it can have; what one
        is given does not undo what another was. */
    method GiveToAll()
      requires Valid()
      modifies status, routes
      ensures Valid() && forall u :: 0 <= u < MAX_TRAINS ==> old(Holdings())[u] <= Holdings()[u]
      ensures forall u :: 0 <= u < numTrains ==> Served(u)
      ensures OnlyGiven(track, old(Holdings()), old(routes[..]), Holdings(), routes[..], wanted[..], lastPos[..],
                        numTrains)
    {
      hide WellFormed, Holdings, Exclusive, Named, TrainSound, Satisfied, Advanced, OnlyGiven;
      ghost var h0, rs0 := Holdings(), routes[..];
      NothingGiven(track, h0, rs0, wanted[..], lastPos[..]);
      for i := 0 to numTrains
        invariant Valid() && OnlyGiven(track, h0, rs0, Holdings(), routes[..], wanted[..], lastPos[..], i)
        invariant forall u :: i <= u < MAX_TRAINS ==> routes[u] == rs0[u] && Holdings()[u] == h0[u]
        invariant forall u :: 0 <= u < i ==> Served(u)
      {
        if wanted[i] > 0 && |routes[i].primary| > 0 {
          ghost var h, rs := Holdings(), routes[..];
          forall u | 0 <= u < i && wanted[u] > 0 && |rs[u].primary| > 0
            ensures Satisfied(track, h, u, rs[u], lastPos[u].node, -lastPos[u].offset, wanted[u])
          {
            assert Served(u);
          }
          GiveReservations(i);
          AdvancedGrows(track, h, i, rs[i], routes[i], Holdings()[i], lastPos[i].node, -lastPos[i].offset, wanted[i]);
          AdvancedSatisfied(track, h, i, rs[i], routes[i], Holdings()[i], lastPos[i].node, -lastPos[i].offset,
                            wanted[i]);
          OneMoreGiven(track, h0, rs0, h, rs, Holdings(), routes[..], wanted[..], lastPos[..], i);
          assert forall u :: 0 <= u < MAX_TRAINS ==> h[u] <= Holdings()[u];
          forall u | 0 <= u < i && wanted[u] > 0 && |routes[u].primary| > 0
            ensures Satisfied(track, Holdings(), u, routes[u], lastPos[u].node, -lastPos[u].offset, wanted[u])
          {
            StaysSatisfied(track, h, Holdings(), u, rs[u], lastPos[u].node, -lastPos[u].offset, wanted[u]);
          }
        } else {
          NoMoreGiven(track, h0, rs0, Holdings(), routes[..], wanted[..], lastPos[..], i);
        }
      }
      GivenGrows(track, h0, rs0, Holdings(), routes[..], wanted[..], lastPos[..], numTrains);
    }

    /** Sets what the train wants and where it is, and gives it what it can have.  Without a
        route the source would read in front of it: `ok` is false. */
    method Advance(t: int, pos: Position, requested: int) returns (ok: bool)
      requires Valid() && 0 <= t < numTrains
      modifies wanted, lastPos, status, routes
      ensures Valid() && Others(t, old(routes[..]))
      ensures wanted[..] == old(wanted[..])[t := requested] && lastPos[..] == old(lastPos[..])[t := pos]
      ensures Holdings() == old(Holdings())[t := Holdings()[t]] && old(Holdings())[t] <= Holdings()[t]
      ensures ok <==> |old(routes[t]).primary| > 0 || requested <= -pos.offset
      ensures if ok then Advanced(track, old(Holdings()), t, old(routes[t]), routes[t], Holdings()[t], pos.node,
                                  -pos.offset, requested)
        else routes[t] == old(routes[t]) && Holdings() == old(Holdings())
    {
      hide WellFormed, Holdings, Exclusive, Named, TrainSound, Advanced;
      wanted[t] := requested;
      lastPos[t] := pos;
      ok := |routes[t].primary| > 0 || requested <= -pos.offset;
      if ok {
        GiveReservations(t);
        AdvancedGrows(track, old(Holdings()), t, old(routes[t]), routes[t], Holdings()[t], pos.node, -pos.offset,
                      requested);
      }
    }

    /** What the message asks for, done for train t. */
    method HandleFor(t: int, m: Message, env: Readings) returns (ok: bool)
      requires Valid() && Proper(track, m, env) && 0 <= t < numTrains && !m.Other?
      modifies this`tampered, this`clashed, wanted, lastPos, status, routes
      ensures Valid()
      ensures forall u :: 0 <= u < MAX_TRAINS && u != t ==> old(Holdings())[u] <= Holdings()[u]
      ensures OnlyTakes(m) ==> old(Holdings())[t] <= Holdings()[t]
      ensures !m.DebugFree? ==> tampered <= old(tampered)
      ensures clashed <= old(clashed) + {t}
      ensures t in clashed ==> t in old(clashed) || LosesTrack(m, old(routes[t]), old(Holdings())[t])
      ensures LosesTrack(m, old(routes[t]), old(Holdings())[t]) ==> t in clashed
      ensures Others(t, old(routes[..])) && Holdings() == old(Holdings())[t := Holdings()[t]]
      ensures Effect(track, m, env, t, old(Holdings()), old(routes[t]), Holdings(), routes[t], ok)
      ensures wanted[..] == old(wanted[..])[t := WishOf(track, m, old(wanted[t]))]
      ensures lastPos[..] == old(lastPos[..])[t := PlaceOf(track, m, old(lastPos[t]))]
    {
      hide WellFormed, Holdings, Exclusive, Named, TrainSound, IsSegment, Taking, OnlyOnRoute, ReleasedTo, GivenUp,
           Clashes, Cleared, Free, Under, ReversePosition, AroundSensor, AroundPosition, IsAnswer, Advanced, HasEdge;
      ok := true;
      match m
      case RouteRequest(_, pos1, goal, requested) =>
        if pos1.node < 0 || pos1.node >= TRACK_MAX || track[pos1.node].kind.NoNode? {
          // The train is lost.
        } else if pos1.offset < 0 || goal < 0 {
          // It cannot be directed there.
        } else {
          ghost var before := routes[t];
          var length, forward, q := NewRoute(t, pos1.node, env.fwdGoal, env.revGoal, env.reversible, env.switches);
          assert Answered(track, old(Holdings()), t, pos1.node, env, before, routes[t]);
          ok := Advance(t, pos1, requested);
        }
      case ReservationRequest(_, pos, requested) =>
        ok := Advance(t, pos, requested);
      case FreeReservation(_, sensor) =>
        ReleaseReservations(t, sensor);
      case ReserveWhereIAm(_, sensor) =>
        ClearAllReservations(t);
        ReservePositionSensor(t, env.switches, sensor);
      case ReserveWhereIAmPos(_, pos) =>
        ClearAllReservations(t);
        ReservePosition(t, env.switches, pos);
      case DebugReserve(node, edge) =>
        var _ := ReserveByHand(t, node, edge);
      case DebugFree(node, edge) =>
        FreeReservationByHand(t, node, edge);
    }

    /** Handles one message.  `t` is the train it is about; when `ok` is false the source
        goes on with a slot or a route that is not there, and is not followed further. */
    method Handle(m: Message, env: Readings) returns (ok: bool, t: int, ghost mid: Table, ghost midRoutes: seq<Route>)
      requires Valid() && Proper(track, m, env)
      modifies this`numTrains, this`tampered, this`clashed, trainNumber, wanted, lastPos, status, routes
      ensures Valid() && t < MAX_TRAINS && |mid| == |midRoutes| == MAX_TRAINS
      ensures t >= 0 ==> trainNumber[t] == TrainOf(m)
      ensures forall u :: 0 <= u < MAX_TRAINS && u != t ==> trainNumber[u] == old(trainNumber[u])
      ensures t < 0 <==>
        m.Other? || (m.ReservationRequest? && m.pos.node < 0) || NoSlot(old(trainNumber[..]), TrainOf(m))
      // First the message does what it asks for, to the train it names and to no other;
      ensures t < 0 ==> mid == old(Holdings()) && midRoutes == old(routes[..])
      ensures t >= 0 ==> Effect(track, m, env, t, old(Holdings()), old(routes[t]), mid, midRoutes[t], ok)
      ensures t >= 0 ==> mid == old(Holdings())[t := mid[t]] && midRoutes == old(routes[..])[t := midRoutes[t]]
      ensures t < 0 ==> wanted[..] == old(wanted[..]) && lastPos[..] == old(lastPos[..])
      ensures t >= 0 ==> wanted[..] == old(wanted[..])[t := WishOf(track, m, old(wanted[t]))]
      ensures t >= 0 ==> lastPos[..] == old(lastPos[..])[t := PlaceOf(track, m, old(lastPos[t]))]
      // then every train is given what it can have.
      ensures ok ==> OnlyGiven(track, mid, midRoutes, Holdings(), routes[..], wanted[..], lastPos[..], numTrains)
      ensures ok ==> forall u :: 0 <= u < numTrains ==> Served(u)
      ensures !ok ==> Holdings() == mid && routes[..] == midRoutes
      // So nothing is taken from any other train, nor from this one unless it gives it up or is debugged.
      ensures forall u :: 0 <= u < MAX_TRAINS && (u != t || OnlyTakes(m)) ==> old(Holdings())[u] <= Holdings()[u]
      ensures !m.DebugFree? ==> tampered <= old(tampered)
      // A train comes to lack track that it counts on exactly when a release of its own clashes.
      ensures forall u :: 0 <= u < MAX_TRAINS && u != t && u in clashed ==> u in old(clashed)
      ensures t >= 0 && t in clashed ==> t in old(clashed) || LosesTrack(m, old(routes[t]), old(Holdings())[t])
      ensures t >= 0 && LosesTrack(m, old(routes[t]), old(Holdings())[t]) ==> t in clashed
    {
      hide WellFormed, Holdings, Exclusive, Named, TrainSound, LosesTrack, IsNode, IsSegment, Proper, Effect, Satisfied;
      t, ok := -1, true;
      mid, midRoutes := Holdings(), routes[..];
      if m.ReservationRequest? && m.pos.node < 0 {
      } else if !m.Other? {
        t := GetTrainIndex(TrainOf(m));
        if t < 0 {
          ok := false;
          return;
        }
        ok := HandleFor(t, m, env);
        mid, midRoutes := Holdings(), routes[..];
        if !ok {
          return;
        }
      }
      GiveToAll();
    }

    ghost function Now(): (s: Snapshot)
      requires Wired()
      reads this, status, routes, trainNumber, wanted, lastPos
    {
      Snapshot(Holdings(), routes[..], trainNumber[..], wanted[..], lastPos[..], numTrains)
    }

    /** Handles one message, with a record of it. */
    method Attend(m: Message, env: Readings) returns (ok: bool, ghost v: Visit)
      requires Valid() && Proper(track, m, env)
      modifies this`numTrains, this`tampered, this`clashed, trainNumber, wanted, lastPos, status, routes
      ensures Valid() && IsVisit(track, v, m, env) && v.ok == ok && v.before == old(Now()) && v.after == Now()
      ensures Full(v.before)
      ensures ok ==> forall u :: 0 <= u < numTrains ==> Served(u)
      ensures !m.DebugFree? ==> tampered <= old(tampered)
      ensures forall u :: 0 <= u < MAX_TRAINS && u in clashed ==>
        u in old(clashed) || (u == v.t && LosesTrack(m, v.before.routes[u], v.before.table[u]))
    {
      hide WellFormed, Holdings, Exclusive, Named, TrainSound, Proper, Effect, OnlyGiven, LosesTrack, Served;
      ghost var before := Now();
      var t;
      ghost var mid, midRoutes;
      ok, t, mid, midRoutes := Handle(m, env);
      v := Visit(before, t, ok, mid, midRoutes, Now());
    }

    /** The message loop.  However long it runs, no two trains hold the same piece of track;
        and unless reservations are taken away by hand, every train holds all that its route
        says is reserved, or it has itself released track that its route still counted on.
        On a route that passes nothing twice this cannot happen. */
    method Serve(messages: seq<(Message, Readings)>) returns (served: nat, ghost log: seq<Visit>)
      requires Valid() && forall i :: 0 <= i < |messages| ==> Proper(track, messages[i].0, messages[i].1)
      modifies this`numTrains, this`tampered, this`clashed, trainNumber, wanted, lastPos, status, routes
      ensures Valid() && served <= |messages|
      ensures IsLog(track, messages, log, old(Now()), Now())
      ensures |log| == if served < |messages| then served + 1 else served
      ensures forall t, u, a, b ::
        0 <= t < MAX_TRAINS && 0 <= u < MAX_TRAINS && t != u && a in Holdings()[t] && b in Holdings()[u] ==>
        a != b && !IsMirror(track, a.0, a.1, b.0, b.1)
      ensures old(tampered) == {} && NoneByHand(messages, |log|) ==>
        && (forall t :: 0 <= t < MAX_TRAINS && Simple(routes[t]) ==> Backed(routes[t], Holdings()[t]))
        && (forall t :: 0 <= t < MAX_TRAINS && t !in old(clashed) && NeverLoses(messages, log, t) ==>
              Backed(routes[t], Holdings()[t]))
      ensures served == |messages| > 0 ==> forall t :: 0 <= t < numTrains ==> Served(t)
    {
      hide WellFormed, Holdings, Named, Simple, Backed, Proper, RouteOk, IsMirror, Now, IsVisit, IsLog, NeverLoses,
        LosesTrack, Served;
      served := 0;
      log := [];
      LogStarts(track, messages, Now());
      while served < |messages|
        invariant Valid() && served == |log| <= |messages| && (log != [] ==> log[|log| - 1].ok)
        invariant IsLog(track, messages, log, old(Now()), Now())
        invariant old(tampered) == {} && NoneByHand(messages, |log|) ==> tampered == {}
        invariant forall t :: 0 <= t < MAX_TRAINS && t in clashed ==> t in old(clashed) || !NeverLoses(messages, log, t)
        invariant served > 0 ==> forall t :: 0 <= t < numTrains ==> Served(t)
      {
        var ok, v := Attend(messages[served].0, messages[served].1);
        LogGrows(track, messages, log, old(Now()), v);
        LossesGrow(messages, log, v);
        log := log + [v];
        if !ok {
          return;
        }
        served := served + 1;
      }
    }
  }

  /** All that the server knows at one time. */
  datatype Snapshot = Snapshot(
    table: Table,
    routes: seq<Route>,
    numbers: seq<int>,
    wanted: seq<int>,
    places: seq<Position>,
    numTrains: nat)

  /** One message handled: first its effect on train t, then what all trains are given. */
  datatype Visit = Visit(before: Snapshot, t: int, ok: bool, mid: Table, midRoutes: seq<Route>, after: Snapshot)

  ghost predicate Full(s: Snapshot) {
    |s.table| == |s.routes| == |s.numbers| == |s.wanted| == |s.places| == MAX_TRAINS
  }

  /** No trains, no routes, nothing reserved. */
  ghost predicate Blank(s: Snapshot) {
    && Full(s) && s.numTrains == 0
    && forall t :: 0 <= t < MAX_TRAINS ==> s.table[t] == {} && s.routes[t] == NO_ROUTE && s.numbers[t] == -1
  }

  ghost predicate IsVisit(track: seq<Node>, v: Visit, m: Message, env: Readings)
    requires TrackOk(track) && Proper(track, m, env)
  {
    var a, t, b := v.before, v.t, v.after;
    && Full(a) && Full(b) && |v.mid| == |v.midRoutes| == MAX_TRAINS && t < MAX_TRAINS
    && (t < 0 <==> m.Other? || (m.ReservationRequest? && m.pos.node < 0) || NoSlot(a.numbers, TrainOf(m)))
    && (forall u :: 0 <= u < MAX_TRAINS ==> b.numbers[u] == if u == t then TrainOf(m) else a.numbers[u])
    && (t < 0 ==> v.mid == a.table && v.midRoutes == a.routes && b.wanted == a.wanted && b.places == a.places)
    && (t >= 0 ==>
          && Effect(track, m, env, t, a.table, a.routes[t], v.mid, v.midRoutes[t], v.ok)
          && v.mid == a.table[t := v.mid[t]] && v.midRoutes == a.routes[t := v.midRoutes[t]]
          && b.wanted == a.wanted[t := WishOf(track, m, a.wanted[t])]
          && b.places == a.places[t := PlaceOf(track, m, a.places[t])])
    && (v.ok ==> OnlyGiven(track, v.mid, v.midRoutes, b.table, b.routes, b.wanted, b.places, b.numTrains))
    && (!v.ok ==> b.table == v.mid && b.routes == v.midRoutes)
  }

  /** The messages handled so far, each from the state that the one before it left. */
  ghost predicate IsLog(track: seq<Node>, messages: seq<(Message, Readings)>, log: seq<Visit>, first: Snapshot,
                        last: Snapshot)
    requires TrackOk(track) && forall i :: 0 <= i < |messages| ==> Proper(track, messages[i].0, messages[i].1)
  {
    if log == [] then last == first
    else
      var k := |log| - 1;
      && k < |messages| && IsVisit(track, log[k], messages[k].0, messages[k].1) && last == log[k].after
      && IsLog(track, messages, log[..k], first, log[k].before) && (k > 0 ==> log[k - 1].ok)
  }

  /** None of the first n messages takes a reservation away by hand. */
  ghost predicate NoneByHand(messages: seq<(Message, Readings)>, n: nat)
    requires n <= |messages|
  {
    forall i :: 0 <= i < n ==> !messages[i].0.DebugFree?
  }

  /** No message has made train t release track that its route went on to count on. */
  ghost predicate NeverLoses(messages: seq<(Message, Readings)>, log: seq<Visit>, t: int)
    requires |log| <= |messages|
  {
    forall i :: 0 <= i < |log| && log[i].t == t && 0 <= t < |log[i].before.routes| == |log[i].before.table| ==>
      !LosesTrack(messages[i].0, log[i].before.routes[t], log[i].before.table[t])
  }

  /** Whom a message is about, and what it tells the server: a request to go on sets how far
      the train wants to go and where it is, and so does a request for a route, unless the
      train is lost or has nowhere to go; no other message does.  Debugging is done for a
      train of its own, number 9000. */
  lemma VisitTells(track: seq<Node>, v: Visit, m: Message, env: Readings)
    requires TrackOk(track) && Proper(track, m, env) && IsVisit(track, v, m, env) && v.t >= 0
    ensures v.t < MAX_TRAINS && Full(v.before) && Full(v.after)
    ensures
      var number, wish, place := v.after.numbers[v.t], v.after.wanted[v.t], v.after.places[v.t];
      var stays := wish == v.before.wanted[v.t] && place == v.before.places[v.t];
      match m
      case RouteRequest(train, pos1, goal, requested) =>
        && number == train
        && if !IsNode(track, pos1.node) || pos1.offset < 0 || goal < 0 then stays
           else wish == requested && place == pos1
      case ReservationRequest(train, pos, requested) => number == train && wish == requested && place == pos
      case FreeReservation(train, _) => number == train && stays
      case ReserveWhereIAm(train, _) => number == train && stays
      case ReserveWhereIAmPos(train, _) => number == train && stays
      case DebugReserve(_, _) => number == 9000 && stays
      case DebugFree(_, _) => number == 9000 && stays
      case Other => false
    ensures forall u :: 0 <= u < MAX_TRAINS && u != v.t ==>
      v.after.wanted[u] == v.before.wanted[u] && v.after.places[u] == v.before.places[u]
  {
    hide WellFormed, Effect, OnlyGiven, Proper;
  }

  lemma LogStarts(track: seq<Node>, messages: seq<(Message, Readings)>, first: Snapshot)
    requires TrackOk(track) && forall i :: 0 <= i < |messages| ==> Proper(track, messages[i].0, messages[i].1)
    ensures IsLog(track, messages, [], first, first)
  {
  }

  lemma LogGrows(track: seq<Node>, messages: seq<(Message, Readings)>, log: seq<Visit>, first: Snapshot, v: Visit)
    requires TrackOk(track) && forall i :: 0 <= i < |messages| ==> Proper(track, messages[i].0, messages[i].1)
    requires IsLog(track, messages, log, first, v.before) && (log != [] ==> log[|log| - 1].ok)
    requires |log| < |messages| && IsVisit(track, v, messages[|log|].0, messages[|log|].1)
    ensures IsLog(track, messages, log + [v], first, v.after)
  {
    hide WellFormed, Proper, IsVisit;
    assert (log + [v])[..|log|] == log;
  }

  lemma LossesGrow(messages: seq<(Message, Readings)>, log: seq<Visit>, v: Visit)
    requires |log| < |messages| && Full(v.before)
    ensures forall t :: NeverLoses(messages, log + [v], t) ==>
      && NeverLoses(messages, log, t)
      && (t == v.t >= 0 && t < MAX_TRAINS ==>
            !LosesTrack(messages[|log|].0, v.before.routes[t], v.before.table[t]))
  {
    hide LosesTrack;
    forall t | NeverLoses(messages, log + [v], t)
      ensures NeverLoses(messages, log, t)
    {
      assert forall i :: 0 <= i < |log| ==> (log + [v])[i] == log[i];
    }
    assert (log + [v])[|log|] == v;
  }

  /** The server task, from its start. */
  method Run(track: seq<Node>, messages: seq<(Message, Readings)>)
    returns (server: RouteServer, served: nat, ghost log: seq<Visit>)
    requires TrackOk(track) && forall i :: 0 <= i < |messages| ==> Proper(track, messages[i].0, messages[i].1)
    ensures server.Valid() && server.track == track && served <= |messages| && |log| <= |messages|
    ensures exists first: Snapshot :: Blank(first) && IsLog(track, messages, log, first, server.Now())
    ensures Exclusive(track, server.Holdings())
    ensures NoneByHand(messages, |log|) ==>
      && (forall t :: 0 <= t < MAX_TRAINS && Simple(server.routes[t]) ==>
            Backed(server.routes[t], server.Holdings()[t]))
      && (forall t :: 0 <= t < MAX_TRAINS && NeverLoses(messages, log, t) ==>
            Backed(server.routes[t], server.Holdings()[t]))
  {
    hide WellFormed, Exclusive, Named, Simple, Backed, Proper, RouteOk, IsLog, NeverLoses, RouteServer.Holdings;
    server := new RouteServer(track);
    assert Blank(server.Now());
    served, log := server.Serve(messages);
  }

  /** Train numbers fill the slots from the front, each in one slot only. */
  ghost predicate Named(numbers: seq<int>) {
    forall i, j :: 0 <= i < j < |numbers| && numbers[j] > 0 ==> numbers[i] > 0 && numbers[i] != numbers[j]
  }

  /** The same place seen the other way: node, edge and offset.  Off an exit, it is the same
      place on the mirror of the expected edge. */
  function ReversePosition(track: seq<Node>, switches: seq<SwitchReading>, pos: Position): (back: (int, int, int))
    requires TrackOk(track) && |switches| == TRACK_MAX && IsNode(track, pos.node)
    ensures IsSegment(track, (back.0, back.1))
    ensures !track[pos.node].kind.Exit? ==>
      var e := ExpectedEdge(track, switches, pos.node);
      IsMirror(track, pos.node, e, back.0, back.1) && back.2 + pos.offset == Dist(track, pos.node, e)
  {
    assert ReverseOk(track, pos.node);
    if track[pos.node].kind.Exit? then (track[pos.node].reverse, 0, -pos.offset)
    else
      var e := ExpectedEdge(track, switches, pos.node);
      assert EdgeOk(track, pos.node, e) && ReverseOk(track, Dest(track, pos.node, e));
      var w := track[Dest(track, pos.node, e)].reverse;
      assert EdgeOk(track, w, 0) && ReverseOk(track, track[w].ahead.dest);
      var f :=
        if track[w].kind.Exit? then 0
        else if track[track[w].ahead.dest].reverse == pos.node then 0
        else if track[track[w].curved.dest].reverse == pos.node then 1
        else 0;
      (w, f, Dist(track, w, f) - pos.offset)
  }

  lemma UnderStep(track: seq<Node>, switches: seq<SwitchReading>, node: int, edge: int, len: int, both: bool)
    requires TrackOk(track) && |switches| == |track| && IsSegment(track, (node, edge))
    requires len < TRAIN_LENGTH && !track[node].kind.Exit?
    ensures HasEdge(track, node, edge) && IsNode(track, Dest(track, node, edge)) && Dist(track, node, edge) > 0
    ensures var next := Dest(track, node, edge);
      && IsSegment(track, (next, ExpectedEdge(track, switches, next)))
      && Under(track, switches, node, edge, len, both) == Standing(track, node, edge, both) +
        Under(track, switches, next, ExpectedEdge(track, switches, next), len + Dist(track, node, edge), both)
  {
    assert EdgeOk(track, node, edge);
  }

  lemma UnderEnds(track: seq<Node>, switches: seq<SwitchReading>, node: int, edge: int, len: int, both: bool)
    requires TrackOk(track) && |switches| == |track| && IsSegment(track, (node, edge))
    requires len >= TRAIN_LENGTH || track[node].kind.Exit?
    ensures Under(track, switches, node, edge, len, both) == {}
  {
  }

  /** Edges out of u on which another train is in the way, there or at the branch's other edge. */
  ghost predicate ConflictsAt(track: seq<Node>, table: Table, t: int, u: int, b: (bool, bool)) {
    && (HasEdge(track, u, 0) ==>
          (b.0 <==> !Free(track, table, t, (u, 0)) || (track[u].kind.Branch? && !Free(track, table, t, (u, 1)))))
    && (HasEdge(track, u, 1) ==>
          (b.1 <==> !Free(track, table, t, (u, 1)) || (track[u].kind.Branch? && !Free(track, table, t, (u, 0)))))
  }

  ghost predicate AreConflicts(track: seq<Node>, table: Table, t: int, conflict: seq<(bool, bool)>) {
    |conflict| == TRACK_MAX && forall u :: 0 <= u < TRACK_MAX ==> ConflictsAt(track, table, t, u, conflict[u])
  }

  lemma ConflictsFit(track: seq<Node>, table: Table, t: int, conflict: seq<(bool, bool)>)
    requires AreConflicts(track, table, t, conflict)
    ensures |conflict| == TRACK_MAX
  {
  }

  ghost function NodesOf(legs: seq<Leg>): (r: seq<RouteNode>)
    ensures |r| == |legs|
  {
    seq(|legs|, i requires 0 <= i < |legs| => legs[i].at)
  }

  lemma PlannedNodes(track: seq<Node>, switches: seq<SwitchReading>, r: seq<RouteNode>, route: Route)
    requires |switches| == |track| && AreSegments(track, r) && PlannedUpTo(track, switches, r, route, |r|)
    ensures NodesOf(route.primary) == r
  {
    hide IsDetour, DetourLength;
    forall i | 0 <= i < |r|
      ensures NodesOf(route.primary)[i] == r[i]
    {
      assert PlannedAt(track, switches, r, route, i);
    }
  }

  lemma GrantsSame(track: seq<Node>, table: Table, t: int)
    requires 0 <= t < |table|
    ensures Grants(track, table, t, table[t]) && table[t := table[t]] == table
  {
  }

  /** All that a found route passes can be reserved. */
  lemma RouteSegments(q: Query, r: seq<RouteNode>, goal: int)
    requires ValidQuery(q) && IsRoute(q, r, goal)
    ensures AreSegments(q.track, r)
  {
    hide WellFormed, Retraces;
    forall i | 0 <= i < |r|
      ensures IsSegment(q.track, (r[i].node, r[i].edge))
    {
      if i < |r| - 1 {
        assert StepOk(q, r, i);
      } else if i > 0 {
        assert StepOk(q, r, i - 1);
        ReverseNode(q, Dest(q.track, r[i - 1].node, r[i - 1].edge));
      }
    }
  }

  lemma ReverseNode(q: Query, v: int)
    requires ValidQuery(q) && IsNode(q.track, v)
    ensures IsNode(q.track, q.track[v].reverse)
  {
    assert ReverseOk(q.track, v);
  }

  function TrainOf(m: Message): (number: int) {
    match m
    case RouteRequest(train, _, _, _) => train
    case ReservationRequest(train, _, _) => train
    case FreeReservation(train, _) => train
    case ReserveWhereIAm(train, _) => train
    case ReserveWhereIAmPos(train, _) => train
    case DebugReserve(_, _) => DEBUG_TRAIN
    case DebugFree(_, _) => DEBUG_TRAIN
    case Other => -1
  }

  /** The message makes the train give up track that its route goes on to count on. */
  ghost predicate LosesTrack(m: Message, r: Route, c: set<Segment>) {
    m.FreeReservation? && Clashes(r, OnlyOnRoute(r, c), FirstAt(r.primary, m.sensor))
  }

  /** Messages on which the train gives nothing up. */
  predicate OnlyTakes(m: Message) {
    m.RouteRequest? || m.ReservationRequest? || m.DebugReserve? || m.Other?
  }

  lemma NothingToCheck(track: seq<Node>, table: Table, numbers: seq<int>)
    requires forall t :: 0 <= t < |table| ==> table[t] == {}
    requires forall i :: 0 <= i < |numbers| ==> numbers[i] <= 0
    ensures Exclusive(track, table) && Named(numbers) && TrainSound(track, NO_ROUTE, {}, false, false)
  {
  }

  lemma NothingToGive(track: seq<Node>, table: Table, t: int, r: Route, start: nat, dist: int, wanted: int)
    requires 0 <= t < |table| && RouteOk(track, r) && r.primary == []
    ensures Given(track, table, t, r, r, table[t]) && AreLegs(track, r.primary)
    ensures AdvancedTo(track, table, t, r, r, start, start, dist, wanted)
    ensures table[t := table[t]] == table && Grants(track, table, t, table[t])
  {
  }

  lemma AdvancedGrows(track: seq<Node>, table: Table, t: int, r: Route, r2: Route, c: set<Segment>, node: int,
                      dist: int, wanted: int)
    requires Advanced(track, table, t, r, r2, c, node, dist, wanted)
    ensures table[t] <= c && |r2.primary| == |r.primary| && SameLegs(r, r2)
  {
    RouteStays(track, r, r2);
  }

  /** A request that names no place to start from, or none to go to. */
  predicate Unroutable(track: seq<Node>, m: Message)
    requires m.RouteRequest?
  {
    !IsNode(track, m.pos1.node) || m.pos1.offset < 0 || m.goal < 0
  }

  /** What was found: no walk to either goal costs less, given what others hold; and
      if anything was found, the new route leads there for no more, planned with its detours. */
  ghost predicate IsAnswer(track: seq<Node>, table: Table, t: int, start: int, env: Readings, before: Route,
                           after: Route,
                           q: Query, length: int, forward: bool) {
    && ValidQuery(q) && AreConflicts(track, table, t, q.conflict) && |env.switches| == |track|
    && q == Query(track, start, env.fwdGoal, env.revGoal, REVERSE_COST, RESERVED_COST, q.conflict, env.reversible)
    && (forall steps, goal ::
          (goal == env.fwdGoal || goal == env.revGoal) && IsWalk(q, start, NO_PARENT, steps, goal) ==>
            length <= WalkCost(q, start, NO_PARENT, steps, goal))
    && (length == INT_MAX ==> after == before)
    && (length != INT_MAX ==>
          var r := NodesOf(after.primary);
          && IsRoute(q, r, if forward then env.fwdGoal else env.revGoal) && RouteCost(q, r, |r| - 1) <= length
          && AreSegments(track, r) && PlannedUpTo(track, env.switches, r, after, |r|))
  }

  ghost predicate Answered(track: seq<Node>, table: Table, t: int, start: int, env: Readings, before: Route,
                           after: Route) {
    exists q, length, forward :: IsAnswer(track, table, t, start, env, before, after, q, length, forward)
  }

  /** The table once train t has tried to take the track on both sides of a position. */
  ghost function AroundPosition(track: seq<Node>, table: Table, t: int, switches: seq<SwitchReading>,
                                pos: Position): (table2: Table)
    requires TrackOk(track) && 0 <= t < |table| && |switches| == TRACK_MAX && IsNode(track, pos.node)
    ensures |table2| == |table| && forall u :: 0 <= u < |table| && u != t ==> table2[u] == table[u]
  {
    var front := Under(track, switches, pos.node, ExpectedEdge(track, switches, pos.node), -pos.offset, false);
    var back := ReversePosition(track, switches, pos);
    var table2 := table[t := Taking(track, table, t, front)];
    table2[t := Taking(track, table2, t, Under(track, switches, back.0, back.1, -back.2, false))]
  }

  /** The same for a sensor; behind it, branches are taken both ways. */
  ghost function AroundSensor(track: seq<Node>, table: Table, t: int, switches: seq<SwitchReading>,
                              sensor: int): (table2: Table)
    requires TrackOk(track) && 0 <= t < |table| && |switches| == TRACK_MAX && IsNode(track, sensor)
    ensures |table2| == |table| && forall u :: 0 <= u < |table| && u != t ==> table2[u] == table[u]
  {
    assert ReverseOk(track, sensor);
    var table2 := table[t := Taking(track, table, t, Under(track, switches, sensor, 0, 0, false))];
    table2[t := Taking(track, table2, t, Under(track, switches, track[sensor].reverse, 0, 0, true))]
  }

  /** How far the train wants to be able to go, after the message. */
  function WishOf(track: seq<Node>, m: Message, before: int): (length: int) {
    match m
    case RouteRequest(_, _, _, requested) => if Unroutable(track, m) then before else requested
    case ReservationRequest(_, _, requested) => requested
    case _ => before
  }

  /** Where it says it is. */
  function PlaceOf(track: seq<Node>, m: Message, before: Position): (pos: Position) {
    match m
    case RouteRequest(_, pos1, _, _) => if Unroutable(track, m) then before else pos1
    case ReservationRequest(_, pos, _) => pos
    case _ => before
  }

  /** All slots belong to other trains. */
  ghost predicate NoSlot(numbers: seq<int>, number: int) {
    forall u :: 0 <= u < |numbers| ==> numbers[u] > 0 && numbers[u] != number
  }

  /** Of the first n trains, those that want to go on were given more of their routes, one
      after the other; nothing else happened. */
  ghost predicate OnlyGiven(track: seq<Node>, table: Table, rs: seq<Route>, table2: Table, rs2: seq<Route>,
                            wanted: seq<int>, places: seq<Position>, n: nat) {
    && |table| == |rs| == |table2| == |rs2| == |wanted| == |places|
    && forall u :: 0 <= u < |table| ==>
         if u < n && wanted[u] > 0 && rs[u].primary != [] then
           exists between :: GivenIn(track, between, table, table2, u, rs[u], rs2[u], places[u], wanted[u])
         else rs2[u] == rs[u] && table2[u] == table[u]
  }

  /** Train u was given reservations when the table was `between`: others had gained by then,
      and others gained later, but nothing had happened to u before, or did after. */
  ghost predicate GivenIn(track: seq<Node>, between: Table, table: Table, table2: Table, u: int, r: Route, r2: Route,
                          place: Position, wanted: int) {
    && |between| == |table| == |table2| && 0 <= u < |table| && between[u] == table[u]
    && (forall v :: 0 <= v < |table| ==> table[v] <= between[v] <= table2[v])
    && Advanced(track, between, u, r, r2, table2[u], place.node, -place.offset, wanted)
  }

  lemma NothingGiven(track: seq<Node>, table: Table, rs: seq<Route>, wanted: seq<int>, places: seq<Position>)
    requires |table| == |rs| == |wanted| == |places|
    ensures OnlyGiven(track, table, rs, table, rs, wanted, places, 0)
  {
  }

  lemma NoMoreGiven(track: seq<Node>, table: Table, rs: seq<Route>, table2: Table, rs2: seq<Route>, wanted: seq<int>,
                    places: seq<Position>, i: nat)
    requires OnlyGiven(track, table, rs, table2, rs2, wanted, places, i) && i < |table|
    requires wanted[i] <= 0 || rs[i].primary == []
    ensures OnlyGiven(track, table, rs, table2, rs2, wanted, places, i + 1)
  {
    hide GivenIn;
  }

  lemma OneMoreGiven(track: seq<Node>, table: Table, rs: seq<Route>, table2: Table, rs2: seq<Route>, table3: Table,
                     rs3: seq<Route>, wanted: seq<int>, places: seq<Position>, i: nat)
    requires OnlyGiven(track, table, rs, table2, rs2, wanted, places, i) && i < |table| && |table3| == |rs3| == |table|
    requires wanted[i] > 0 && rs[i].primary != []
    requires Advanced(track, table2, i, rs2[i], rs3[i], table3[i], places[i].node, -places[i].offset, wanted[i])
    requires forall u :: 0 <= u < |table| && u != i ==> table3[u] == table2[u] && rs3[u] == rs2[u]
    ensures OnlyGiven(track, table, rs, table3, rs3, wanted, places, i + 1)
  {
    GivenGrows(track, table, rs, table2, rs2, wanted, places, i);
    AdvancedGrows(track, table2, i, rs2[i], rs3[i], table3[i], places[i].node, -places[i].offset, wanted[i]);
    hide Advanced;
    assert GivenIn(track, table2, table, table3, i, rs[i], rs3[i], places[i], wanted[i]);
    forall u | 0 <= u < i && wanted[u] > 0 && rs[u].primary != []
      ensures exists between :: GivenIn(track, between, table, table3, u, rs[u], rs3[u], places[u], wanted[u])
    {
      var between :| GivenIn(track, between, table, table2, u, rs[u], rs2[u], places[u], wanted[u]);
      assert GivenIn(track, between, table, table3, u, rs[u], rs3[u], places[u], wanted[u]);
    }
  }

  lemma GivenGrows(track: seq<Node>, table: Table, rs: seq<Route>, table2: Table, rs2: seq<Route>, wanted: seq<int>,
                   places: seq<Position>, n: nat)
    requires OnlyGiven(track, table, rs, table2, rs2, wanted, places, n)
    ensures forall u :: 0 <= u < |table| ==> table[u] <= table2[u]
  {
    hide Advanced;
    forall u | 0 <= u < |table|
      ensures table[u] <= table2[u]
    {
      if u < n && wanted[u] > 0 && rs[u].primary != [] {
        var between :| GivenIn(track, between, table, table2, u, rs[u], rs2[u], places[u], wanted[u]);
        AdvancedGrows(track, between, u, rs[u], rs2[u], table2[u], places[u].node, -places[u].offset, wanted[u]);
      }
    }
  }

  /** What a message does to the train it names, which had route r. */
  ghost predicate Effect(track: seq<Node>, m: Message, env: Readings, t: int, table: Table, r: Route, table2: Table,
                         r2: Route, ok: bool)
    requires TrackOk(track) && Proper(track, m, env) && 0 <= t < |table| == |table2|
  {
    match m
    case RouteRequest(_, pos1, _, requested) =>
      if Unroutable(track, m) then ok && r2 == r && table2 == table
      else exists planned ::
        && Answered(track, table, t, pos1.node, env, r, planned)
        && (ok ==> Advanced(track, table, t, planned, r2, table2[t], pos1.node, -pos1.offset, requested))
        && (!ok ==> planned.primary == [] && r2 == planned && table2 == table)
    case ReservationRequest(_, pos, requested) =>
      if ok then Advanced(track, table, t, r, r2, table2[t], pos.node, -pos.offset, requested)
      else r.primary == [] && r2 == r && table2 == table
    case FreeReservation(_, sensor) =>
      var c, n := OnlyOnRoute(r, table[t]), FirstAt(r.primary, sensor);
      ok && ReleasedTo(r, c, n, r2) && table2[t] == c - GivenUp(r, c, n)
    case ReserveWhereIAm(_, sensor) =>
      ok && Cleared(r, r2) && table2 == AroundSensor(track, table[t := {}], t, env.switches, sensor)
    case ReserveWhereIAmPos(_, pos) =>
      ok && Cleared(r, r2) && table2 == AroundPosition(track, table[t := {}], t, env.switches, pos)
    case DebugReserve(node, edge) =>
      ok && r2 == r && table2[t] == table[t] + if Free(track, table, t, (node, edge)) then {(node, edge)} else {}
    case DebugFree(node, edge) =>
      ok && r2 == r && table2[t] == table[t] - {(node, edge)}
    case Other => ok && r2 == r && table2 == table
  }
}
