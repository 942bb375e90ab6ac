/** Who may hold which piece of track: segments and their mirrors, the columns of the
    reservation table, and routes with their reserved lengths. */
module Reservations {
  import opened Track
  import opened RouteSearch

  const MAX_TRAINS := 5
  const REVERSE_COST := 400
  const RESERVED_COST := 18000

  /** A node and one of its edges. */
  type Segment = (int, int)

  /** Two segments are the same piece of track: one edge, or an edge and its mirror. */
  ghost predicate Shares(track: seq<Node>, a: Segment, b: Segment) {
    a == b || IsMirror(track, a.0, a.1, b.0, b.1)
  }

  ghost predicate TrackOk(track: seq<Node>) {
    && |track| == TRACK_MAX && WellFormed(track)
    && (forall u, e :: HasEdge(track, u, e) ==> 0 < Dist(track, u, e) <= INT_MAX - RESERVED_COST)
  }

  /** What can be reserved: an edge, or the end of an exit. */
  predicate IsSegment(track: seq<Node>, s: Segment) {
    HasEdge(track, s.0, s.1) || (IsNode(track, s.0) && track[s.0].kind.Exit? && 0 <= s.1 <= 1)
  }

  /** One piece of track between two ends: the least that meets these hypotheses. */
  function TwoEnds(length: int): (track: seq<Node>)
    ensures |track| == TRACK_MAX
  {
    var none := Edge(0, 0);
    [Node(Enter, 1, Edge(2, length), none), Node(Exit, 0, none, none),
     Node(Exit, 3, none, none), Node(Enter, 2, Edge(1, length), none)]
    + seq(TRACK_MAX - 4, _ => Node(NoNode, 0, none, none))
  }

  lemma TwoEndsOk(length: int)
    requires 0 < length <= INT_MAX - RESERVED_COST
    ensures TrackOk(TwoEnds(length)) && HasEdge(TwoEnds(length), 0, 0)
    ensures Shares(TwoEnds(length), (0, 0), (3, 0))
  {
    var track := TwoEnds(length);
    assert forall u :: 4 <= u < TRACK_MAX ==> track[u].kind.NoNode?;
    assert IsMirror(track, 0, 0, 3, 0) && IsMirror(track, 3, 0, 0, 0);
  }

  lemma SharesSymmetric(track: seq<Node>, a: Segment, b: Segment)
    requires WellFormed(track) && Shares(track, a, b)
    ensures Shares(track, b, a)
  {
    if a != b {
      MirrorInvolution(track, a.0, a.1, b.0, b.1);
    }
  }

  /** The mirror, as the source looks for it: the edge back from the reverse of the far
      node, whichever of the two leads to the reverse of the near one. */
  function MirrorOf(track: seq<Node>, s: Segment): (m: Segment)
    requires WellFormed(track) && HasEdge(track, s.0, s.1)
    ensures IsMirror(track, s.0, s.1, m.0, m.1)
    ensures forall b :: Shares(track, s, b) <==> b == s || b == m
  {
    assert EdgeOk(track, s.0, s.1) && ReverseOk(track, Dest(track, s.0, s.1));
    var w := track[Dest(track, s.0, s.1)].reverse;
    if track[w].ahead.dest == track[s.0].reverse then (w, 0) else (w, 1)
  }

  // ---------- The table ----------

  /** For each train, the segments it holds. */
  type Table = seq<set<Segment>>

  ghost predicate Exclusive(track: seq<Node>, table: Table) {
    forall t, u, a, b {:trigger a in table[t], b in table[u]} ::
      0 <= t < |table| && 0 <= u < |table| && t != u && a in table[t] && b in table[u] ==> !Shares(track, a, b)
  }

  /** No train but t holds segment s, in either direction. */
  ghost predicate Free(track: seq<Node>, table: Table, t: int, s: Segment) {
    forall u, b {:trigger b in table[u]} :: 0 <= u < |table| && u != t && b in table[u] ==> !Shares(track, s, b)
  }

  /** A train may only add segments that are free. */
  ghost predicate Grants(track: seq<Node>, table: Table, t: int, c: set<Segment>)
    requires 0 <= t < |table|
  {
    forall s :: s in c ==> s in table[t] || Free(track, table, t, s)
  }

  /** Whatever a train holds after such an addition, and after any release, is its own. */
  lemma StaysExclusive(track: seq<Node>, table: Table, t: int, c: set<Segment>)
    requires WellFormed(track) && Exclusive(track, table) && 0 <= t < |table| && Grants(track, table, t, c)
    ensures Exclusive(track, table[t := c])
  {
    hide WellFormed, IsMirror;
    var table2 := table[t := c];
    forall u, v, a, b | 0 <= u < |table2| && 0 <= v < |table2| && u != v && a in table2[u] && b in table2[v]
      ensures !Shares(track, a, b)
    {
      if v == t {
        assert a in table[u];
        assert Shares(track, a, b) ==> Shares(track, b, a) by {
          if Shares(track, a, b) {
            SharesSymmetric(track, a, b);
          }
        }
      } else if u == t {
        assert b in table[v];
      } else {
        assert a in table[u] && b in table[v];
      }
    }
  }

  /** What t holds itself does not matter to what is free for it. */
  lemma FreeIgnoresOwn(track: seq<Node>, table: Table, t: int, c: set<Segment>, s: Segment)
    requires 0 <= t < |table|
    ensures Free(track, table[t := c], t, s) <==> Free(track, table, t, s)
  {
    var table2 := table[t := c];
    assert forall u :: 0 <= u < |table| && u != t ==> table2[u] == table[u];
  }

  // ---------- Routes ----------

  /** A node of a route, the length reserved beyond it, and the detour that starts there,
      if any. */
  datatype Leg = Leg(at: RouteNode, reserved: int, detour: int)

  /** The way the train should take, and where it goes if a switch fails. */
  datatype Route = Route(primary: seq<Leg>, detours: seq<seq<Leg>>)

  const NO_ROUTE := Route([], [])

  function SegmentOf(leg: Leg): (s: Segment) {
    (leg.at.node, leg.at.edge)
  }

  function LengthOf(track: seq<Node>, leg: Leg): (d: int)
    requires 0 <= leg.at.node < |track|
  {
    Dist(track, leg.at.node, leg.at.edge)
  }

  const PRIMARY := -1

  /** The primary route, or one of the detours. */
  function Row(r: Route, d: int): (legs: seq<Leg>)
    requires PRIMARY <= d < |r.detours|
  {
    if d == PRIMARY then r.primary else r.detours[d]
  }

  predicate HasLeg(r: Route, d: int, j: int) {
    PRIMARY <= d < |r.detours| && 0 <= j < |Row(r, d)|
  }

  function LegAt(r: Route, d: int, j: int): (leg: Leg)
    requires HasLeg(r, d, j)
  {
    Row(r, d)[j]
  }

  function WithReserved(r: Route, d: int, j: int, reserved: int): (r2: Route)
    requires HasLeg(r, d, j)
    ensures SameLegs(r, r2)
    ensures forall x, y :: HasLeg(r, x, y) ==>
      LegAt(r2, x, y) == if x == d && y == j then LegAt(r, d, j).(reserved := reserved) else LegAt(r, x, y)
    ensures if d == PRIMARY then r2.detours == r.detours else r2.primary == r.primary
  {
    var row := Row(r, d)[j := Row(r, d)[j].(reserved := reserved)];
    if d == PRIMARY then r.(primary := row) else r.(detours := r.detours[d := row])
  }

  /** The routes differ at most in their reserved lengths. */
  ghost predicate SameLegs(r: Route, r2: Route) {
    && |r2.detours| == |r.detours|
    && (forall d, j :: HasLeg(r, d, j) <==> HasLeg(r2, d, j))
    && (forall d, j :: HasLeg(r, d, j) ==> LegAt(r2, d, j) == LegAt(r, d, j).(reserved := LegAt(r2, d, j).reserved))
  }

  lemma SameSizes(r: Route, r2: Route)
    requires SameLegs(r, r2)
    ensures |r2.primary| == |r.primary|
    ensures forall d :: 0 <= d < |r.detours| ==> |r2.detours[d]| == |r.detours[d]|
  {
    assert HasLeg(r, PRIMARY, |r2.primary|) <==> HasLeg(r2, PRIMARY, |r2.primary|);
    assert HasLeg(r, PRIMARY, |r.primary|) <==> HasLeg(r2, PRIMARY, |r.primary|);
    forall d | 0 <= d < |r.detours|
      ensures |r2.detours[d]| == |r.detours[d]|
    {
      assert HasLeg(r, d, |r2.detours[d]|) <==> HasLeg(r2, d, |r2.detours[d]|);
      assert HasLeg(r, d, |r.detours[d]|) <==> HasLeg(r2, d, |r.detours[d]|);
    }
  }

  ghost predicate RouteOk(track: seq<Node>, r: Route) {
    forall d, j :: HasLeg(r, d, j) ==>
      IsSegment(track, SegmentOf(LegAt(r, d, j))) && PRIMARY <= LegAt(r, d, j).detour < |r.detours|
  }

  ghost predicate OnRoute(r: Route, s: Segment) {
    exists d, j :: HasLeg(r, d, j) && SegmentOf(LegAt(r, d, j)) == s
  }

  /** No segment occurs twice. */
  ghost predicate Simple(r: Route) {
    forall d, j, x, y ::
      HasLeg(r, d, j) && HasLeg(r, x, y) && SegmentOf(LegAt(r, d, j)) == SegmentOf(LegAt(r, x, y)) ==>
        d == x && j == y
  }

  /** Whatever the route says is reserved, the train holds. */
  ghost predicate Backed(r: Route, c: set<Segment>) {
    forall d, j :: HasLeg(r, d, j) && LegAt(r, d, j).reserved > 0 ==> SegmentOf(LegAt(r, d, j)) in c
  }

  /** What is always true of a train: its route is on the track, and unless a segment was
      taken away by hand or a release has clashed, which happens only on a route with a
      segment that occurs twice, it holds what it counts on. */
  ghost predicate TrainSound(track: seq<Node>, r: Route, c: set<Segment>, tampered: bool, clashed: bool) {
    RouteOk(track, r) && (tampered || clashed || Backed(r, c)) && (clashed ==> !Simple(r))
  }

  lemma SameLegsKeeps(track: seq<Node>, r: Route, r2: Route)
    requires SameLegs(r, r2)
    ensures RouteOk(track, r) ==> RouteOk(track, r2)
    ensures Simple(r) <==> Simple(r2)
    ensures forall s :: OnRoute(r, s) <==> OnRoute(r2, s)
  {
    forall s | OnRoute(r, s)
      ensures OnRoute(r2, s)
    {
      var d, j :| HasLeg(r, d, j) && SegmentOf(LegAt(r, d, j)) == s;
      assert HasLeg(r2, d, j);
    }
    forall s | OnRoute(r2, s)
      ensures OnRoute(r, s)
    {
      var d, j :| HasLeg(r2, d, j) && SegmentOf(LegAt(r2, d, j)) == s;
      assert HasLeg(r, d, j);
    }
  }

  // ---------- Giving ----------

  /** The length of the first n legs. */
  ghost function Span(track: seq<Node>, legs: seq<Leg>, n: nat): (d: int)
    requires n <= |legs| && AreLegs(track, legs)
  {
    if n == 0 then 0 else Span(track, legs, n - 1) + LengthOf(track, legs[n - 1])
  }

  /** What giving reservations to train t may do to a leg: raise its reserved length to
      the whole leg, if its segment is free. */
  ghost predicate MayRaise(track: seq<Node>, table: Table, t: int, leg: Leg, leg2: Leg)
    requires 0 <= leg.at.node < |track|
  {
    || leg2 == leg
    || (&& Free(track, table, t, SegmentOf(leg)) && leg.reserved < LengthOf(track, leg)
        && leg2 == leg.(reserved := LengthOf(track, leg)))
  }

  ghost predicate Raised(r: Route, r2: Route, d: int, j: int, s: Segment) {
    HasLeg(r, d, j) && HasLeg(r2, d, j) && LegAt(r2, d, j) != LegAt(r, d, j) && SegmentOf(LegAt(r, d, j)) == s
  }

  /** Some leg on this segment has changed. */
  ghost predicate SomeRaised(r: Route, r2: Route, s: Segment) {
    exists d, j :: Raised(r, r2, d, j, s)
  }

  /** Train t, holding c, was given reservations on its route r, now r2: it lost nothing,
      and what it gained was free and is on the route. */
  ghost predicate Given(track: seq<Node>, table: Table, t: int, r: Route, r2: Route, c: set<Segment>)
    requires 0 <= t < |table| && RouteOk(track, r)
  {
    && SameLegs(r, r2)
    && table[t] <= c
    && (forall s :: s in c ==> s in table[t] || (Free(track, table, t, s) && SomeRaised(r, r2, s)))
    && (forall d, j :: HasLeg(r, d, j) ==> MayRaise(track, table, t, LegAt(r, d, j), LegAt(r2, d, j)))
    && (forall d, j :: HasLeg(r, d, j) && LegAt(r2, d, j) != LegAt(r, d, j) ==> SegmentOf(LegAt(r, d, j)) in c)
  }

  /** One leg raised. */
  lemma GivenStep(track: seq<Node>, table: Table, t: int, r: Route, r2: Route, c: set<Segment>, d: int, j: int)
    requires 0 <= t < |table| && RouteOk(track, r) && Given(track, table, t, r, r2, c) && HasLeg(r2, d, j)
    requires var leg := LegAt(r2, d, j);
      Free(track, table, t, SegmentOf(leg)) && leg.reserved < LengthOf(track, leg)
    ensures var leg := LegAt(r2, d, j);
      Given(track, table, t, r, WithReserved(r2, d, j, LengthOf(track, leg)), c + {SegmentOf(leg)})
  {
    hide Free, Row;
    var leg := LegAt(r2, d, j);
    assert HasLeg(r, d, j) && IsSegment(track, SegmentOf(LegAt(r, d, j)));
    var r3 := WithReserved(r2, d, j, LengthOf(track, leg));
    assert MayRaise(track, table, t, LegAt(r, d, j), leg);
    assert Raised(r, r3, d, j, SegmentOf(leg));
    forall s | SomeRaised(r, r2, s)
      ensures SomeRaised(r, r3, s)
    {
      var x, y :| Raised(r, r2, x, y, s);
      assert Raised(r, r3, x, y, s);
    }
  }

  /** What reserving for one leg leaves: r3 and c3 are r2 and c, or have leg j of row d raised. */
  lemma GivenNext(track: seq<Node>, table: Table, t: int, r: Route, r2: Route, c: set<Segment>, d: int, j: int,
                  ok: bool, r3: Route, c3: set<Segment>)
    requires 0 <= t < |table| && RouteOk(track, r) && Given(track, table, t, r, r2, c) && HasLeg(r2, d, j)
    requires IsSegment(track, SegmentOf(LegAt(r2, d, j)))
    requires var leg := LegAt(r2, d, j);
      var length := LengthOf(track, leg);
      var raised := leg.reserved < length && ok;
      && (ok <==> leg.reserved >= length || Free(track, table[t := c], t, SegmentOf(leg)))
      && r3 == (if raised then WithReserved(r2, d, j, length) else r2)
      && c3 == (if raised then c + {SegmentOf(leg)} else c)
    ensures Given(track, table, t, r, r3, c3)
    ensures
      var leg := LegAt(r2, d, j);
      ok <==> leg.reserved >= LengthOf(track, leg) || Free(track, table, t, SegmentOf(leg))
  {
    hide Free, Row, Given, WithReserved;
    var leg := LegAt(r2, d, j);
    FreeIgnoresOwn(track, table, t, c, SegmentOf(leg));
    if leg.reserved < LengthOf(track, leg) && ok {
      GivenStep(track, table, t, r, r2, c, d, j);
    }
  }

  lemma GivenBacked(track: seq<Node>, table: Table, t: int, r: Route, r2: Route, c: set<Segment>)
    requires 0 <= t < |table| && RouteOk(track, r) && Given(track, table, t, r, r2, c)
    ensures Backed(r, table[t]) ==> Backed(r2, c)
    ensures Grants(track, table, t, c)
  {
    hide Free, IsSegment, Row;
    if Backed(r, table[t]) {
      forall d, j | HasLeg(r2, d, j) && LegAt(r2, d, j).reserved > 0
        ensures SegmentOf(LegAt(r2, d, j)) in c
      {
        assert HasLeg(r, d, j);
      }
    }
  }

  lemma GivenTransitive(track: seq<Node>, table: Table, t: int, r: Route, r2: Route, c2: set<Segment>, r3: Route,
                        c3: set<Segment>)
    requires 0 <= t < |table| && RouteOk(track, r) && Given(track, table, t, r, r2, c2)
    requires RouteOk(track, r2) && Given(track, table[t := c2], t, r2, r3, c3)
    ensures Given(track, table, t, r, r3, c3)
  {
    hide Free, Row;
    SameLegsKeeps(track, r, r2);
    forall s
      ensures Free(track, table[t := c2], t, s) <==> Free(track, table, t, s)
    {
      FreeIgnoresOwn(track, table, t, c2, s);
    }
    forall d, j | HasLeg(r, d, j)
      ensures MayRaise(track, table, t, LegAt(r, d, j), LegAt(r3, d, j))
      ensures LegAt(r3, d, j) != LegAt(r, d, j) ==> SegmentOf(LegAt(r, d, j)) in c3
    {
      assert HasLeg(r2, d, j);
      assert MayRaise(track, table[t := c2], t, LegAt(r2, d, j), LegAt(r3, d, j));
    }
    RaisedTransitive(track, r, r2, r3);
  }

  ghost predicate OnlyRaised(track: seq<Node>, r: Route, r2: Route)
    requires RouteOk(track, r)
  {
    && SameLegs(r, r2)
    && forall d, j :: HasLeg(r, d, j) ==>
         var leg, leg2 := LegAt(r, d, j), LegAt(r2, d, j);
         leg2 == leg || (leg.reserved < LengthOf(track, leg) && leg2 == leg.(reserved := LengthOf(track, leg)))
  }

  lemma RaisedTransitive(track: seq<Node>, r: Route, r2: Route, r3: Route)
    requires RouteOk(track, r) && RouteOk(track, r2) && OnlyRaised(track, r, r2) && OnlyRaised(track, r2, r3)
    ensures forall s :: SomeRaised(r, r2, s) || SomeRaised(r2, r3, s) ==> SomeRaised(r, r3, s)
  {
    hide Row, IsSegment;
    forall s | SomeRaised(r, r2, s)
      ensures SomeRaised(r, r3, s)
    {
      var d, j :| Raised(r, r2, d, j, s);
      assert HasLeg(r3, d, j) && Raised(r, r3, d, j, s);
    }
    forall s | SomeRaised(r2, r3, s)
      ensures SomeRaised(r, r3, s)
    {
      var d, j :| Raised(r2, r3, d, j, s);
      assert HasLeg(r, d, j) && Raised(r, r3, d, j, s);
    }
  }

  lemma GivenSound(track: seq<Node>, table: Table, t: int, r: Route, r2: Route, c: set<Segment>, tampered: bool,
                   clashed: bool)
    requires 0 <= t < |table| && TrainSound(track, r, table[t], tampered, clashed) && Given(track, table, t, r, r2, c)
    ensures TrainSound(track, r2, c, tampered, clashed) && Grants(track, table, t, c)
  {
    hide Free, IsSegment, Row;
    SameLegsKeeps(track, r, r2);
    GivenBacked(track, table, t, r, r2, c);
  }

  lemma SoundRoute(track: seq<Node>, r: Route, c: set<Segment>, tampered: bool, clashed: bool)
    requires TrainSound(track, r, c, tampered, clashed)
    ensures RouteOk(track, r)
  {
  }

  ghost predicate AreLegs(track: seq<Node>, legs: seq<Leg>) {
    forall j :: 0 <= j < |legs| ==> IsSegment(track, SegmentOf(legs[j]))
  }

  /** How far the primary route is given: from leg `start` at distance `dist`, up to the
      first leg that is not wanted, lies past a reversal, or is held by another train. */
  ghost predicate GivenUpTo(track: seq<Node>, table: Table, t: int, legs: seq<Leg>, start: nat, stop: nat, dist: int,
                            wanted: int)
    requires AreLegs(track, legs)
  {
    && AllPass(track, table, t, legs, start, stop, dist, wanted)
    && (stop < |legs| ==> !Passes(track, table, t, legs, start, stop, dist, wanted))
  }

  ghost predicate AllPass(track: seq<Node>, table: Table, t: int, legs: seq<Leg>, start: nat, stop: nat, dist: int,
                          wanted: int)
    requires AreLegs(track, legs)
  {
    && start <= stop && (start < stop ==> stop <= |legs|)
    && forall j :: start <= j < stop ==> Passes(track, table, t, legs, start, j, dist, wanted)
  }

  lemma OneMorePasses(track: seq<Node>, table: Table, t: int, legs: seq<Leg>, start: nat, stop: nat, dist: int,
                      wanted: int)
    requires AreLegs(track, legs) && AllPass(track, table, t, legs, start, stop, dist, wanted)
    requires stop < |legs| && Passes(track, table, t, legs, start, stop, dist, wanted)
    ensures AllPass(track, table, t, legs, start, stop + 1, dist, wanted)
  {
    hide Passes;
  }

  ghost predicate Passes(track: seq<Node>, table: Table, t: int, legs: seq<Leg>, start: nat, j: nat, dist: int,
                         wanted: int)
    requires AreLegs(track, legs) && start <= j < |legs|
  {
    && dist + Span(track, legs, j) - Span(track, legs, start) < wanted
    && (j > start ==> !legs[j - 1].at.reverseHere)
    && (legs[j].reserved >= LengthOf(track, legs[j]) || Free(track, table, t, SegmentOf(legs[j])))
  }

  /** A detour is given as far as the distance goes, unless an exit or another train is
      in the way. */
  ghost predicate DetourGiven(track: seq<Node>, table: Table, t: int, legs: seq<Leg>, distance: int)
    requires AreLegs(track, legs)
  {
    exists k: nat :: k <= |legs| && DetourGivenUpTo(track, table, t, legs, k, distance)
  }

  ghost predicate DetourGivenUpTo(track: seq<Node>, table: Table, t: int, legs: seq<Leg>, k: nat, distance: int)
    requires AreLegs(track, legs) && k <= |legs|
  {
    && (forall j :: 0 <= j < k ==>
          && Span(track, legs, j) < distance && !track[legs[j].at.node].kind.Exit?
          && (legs[j].reserved > 0 || legs[j].reserved >= LengthOf(track, legs[j])))
    && (|| k == |legs| || Span(track, legs, k) >= distance || track[legs[k].at.node].kind.Exit?
        || (legs[k].reserved <= 0 && !Free(track, table, t, SegmentOf(legs[k]))))
  }

  lemma RowLegs(track: seq<Node>, r: Route, d: int)
    requires RouteOk(track, r) && PRIMARY <= d < |r.detours|
    ensures AreLegs(track, Row(r, d))
  {
    forall j | 0 <= j < |Row(r, d)|
      ensures IsSegment(track, SegmentOf(Row(r, d)[j]))
    {
      assert HasLeg(r, d, j) && LegAt(r, d, j) == Row(r, d)[j];
    }
  }

  lemma {:induction false} SameSpan(track: seq<Node>, legs: seq<Leg>, legs2: seq<Leg>, n: nat)
    requires AreLegs(track, legs) && AreLegs(track, legs2) && n <= |legs| == |legs2|
    requires forall j :: 0 <= j < |legs| ==> SegmentOf(legs2[j]) == SegmentOf(legs[j])
    ensures Span(track, legs2, n) == Span(track, legs, n)
  {
    if n > 0 {
      SameSpan(track, legs, legs2, n - 1);
      assert SegmentOf(legs2[n - 1]) == SegmentOf(legs[n - 1]);
    }
  }

  /** The first k legs of a detour, which were `legs`, have been given. */
  ghost predicate GivenSoFar(track: seq<Node>, legs: seq<Leg>, legs2: seq<Leg>, k: nat, distance: int) {
    && AreLegs(track, legs) && k <= |legs| == |legs2|
    && (forall j :: 0 <= j < |legs| ==> SegmentOf(legs2[j]) == SegmentOf(legs[j]))
    && (forall j :: 0 <= j < k ==>
          && Span(track, legs, j) < distance && !track[legs[j].at.node].kind.Exit?
          && (legs2[j].reserved > 0 || legs2[j].reserved >= LengthOf(track, legs[j])))
  }

  lemma DetourReached(track: seq<Node>, table: Table, t: int, legs: seq<Leg>, legs2: seq<Leg>, k: nat, distance: int)
    requires GivenSoFar(track, legs, legs2, k, distance)
    requires
      || k == |legs| || Span(track, legs, k) >= distance || track[legs[k].at.node].kind.Exit?
      || (legs2[k].reserved <= 0 && !Free(track, table, t, SegmentOf(legs[k])))
    ensures AreLegs(track, legs2) && DetourGiven(track, table, t, legs2, distance)
  {
    hide Free, Span;
    forall j | 0 <= j < |legs|
      ensures IsSegment(track, SegmentOf(legs2[j]))
    {
      assert IsSegment(track, SegmentOf(legs[j])) && SegmentOf(legs2[j]) == SegmentOf(legs[j]);
    }
    SameSpan(track, legs, legs2, k);
    forall j | 0 <= j < k
      ensures Span(track, legs2, j) < distance && !track[legs2[j].at.node].kind.Exit?
    {
      SameSpan(track, legs, legs2, j);
      assert SegmentOf(legs2[j]) == SegmentOf(legs[j]);
    }
    assert k < |legs| ==> SegmentOf(legs2[k]) == SegmentOf(legs[k]);
    assert DetourGivenUpTo(track, table, t, legs2, k, distance);
  }

  /** One more leg of row d has been given. */
  lemma GivenFurther(track: seq<Node>, legs: seq<Leg>, r2: Route, r3: Route, d: int, i: nat, distance: int)
    requires 0 <= d < |r2.detours| == |r3.detours| && GivenSoFar(track, legs, r2.detours[d], i, distance)
    requires i < |legs| && Span(track, legs, i) < distance && !track[legs[i].at.node].kind.Exit?
    requires r3 == r2 || r3 == WithReserved(r2, d, i, LengthOf(track, legs[i]))
    requires r3.detours[d][i].reserved > 0 || r3.detours[d][i].reserved >= LengthOf(track, legs[i])
    ensures GivenSoFar(track, legs, r3.detours[d], i + 1, distance)
  {
    hide Span, HasEdge, IsNode;
  }

  lemma GivenNothing(track: seq<Node>, table: Table, t: int, r: Route)
    requires 0 <= t < |table| && RouteOk(track, r)
    ensures Given(track, table, t, r, r, table[t])
  {
  }

  lemma LegFacts(track: seq<Node>, r: Route, d: int, j: int)
    requires RouteOk(track, r) && HasLeg(r, d, j)
    ensures var leg := LegAt(r, d, j);
      IsSegment(track, SegmentOf(leg)) && PRIMARY <= leg.detour < |r.detours|
  {
  }

  lemma NoneGivenYet(track: seq<Node>, r: Route, d: int, distance: int)
    requires RouteOk(track, r) && 0 <= d < |r.detours|
    ensures AreLegs(track, r.detours[d]) && Span(track, r.detours[d], 0) == 0
    ensures GivenSoFar(track, r.detours[d], r.detours[d], 0, distance)
  {
    RowLegs(track, r, d);
  }

  lemma SoFarFacts(track: seq<Node>, legs: seq<Leg>, legs2: seq<Leg>, i: nat, distance: int)
    requires GivenSoFar(track, legs, legs2, i, distance) && i < |legs|
    ensures AreLegs(track, legs) && SegmentOf(legs2[i]) == SegmentOf(legs[i]) && IsSegment(track, SegmentOf(legs[i]))
    ensures Span(track, legs, i + 1) == Span(track, legs, i) + LengthOf(track, legs[i])
  {
  }

  lemma RouteStays(track: seq<Node>, r: Route, r2: Route)
    requires RouteOk(track, r) && SameLegs(r, r2)
    ensures RouteOk(track, r2)
    ensures |r2.primary| == |r.primary|
    ensures forall d :: 0 <= d < |r.detours| ==> |r2.detours[d]| == |r.detours[d]|
  {
    SameLegsKeeps(track, r, r2);
    SameSizes(r, r2);
  }

  /** Giving more later does not undo it. */
  lemma DetourStaysGiven(track: seq<Node>, table: Table, t: int, legs: seq<Leg>, legs2: seq<Leg>, distance: int)
    requires AreLegs(track, legs) && AreLegs(track, legs2) && |legs| == |legs2|
    requires DetourGiven(track, table, t, legs, distance)
    requires forall j :: 0 <= j < |legs| ==> MayRaise(track, table, t, legs[j], legs2[j])
    ensures DetourGiven(track, table, t, legs2, distance)
  {
    hide Free, Span;
    var k: nat :| k <= |legs| && DetourGivenUpTo(track, table, t, legs, k, distance);
    forall j | 0 <= j < |legs|
      ensures SegmentOf(legs2[j]) == SegmentOf(legs[j]) && legs2[j].reserved >= legs[j].reserved
    {
      assert MayRaise(track, table, t, legs[j], legs2[j]);
    }
    assert k < |legs| ==> MayRaise(track, table, t, legs[k], legs2[k]);
    DetourReached(track, table, t, legs, legs2, k, distance);
  }

  /** Of the detours, only those at the given legs have changed, and only as far as the
      train wants to go. */
  ghost predicate DetoursWithin(track: seq<Node>, r: Route, r2: Route, start: nat, stop: nat, dist: int, wanted: int) {
    forall d, j :: HasLeg(r, d, j) && HasLeg(r2, d, j) && d != PRIMARY && LegAt(r2, d, j) != LegAt(r, d, j) ==>
      exists i :: ReachedFrom(track, r, start, stop, i, d, j, dist, wanted)
  }

  ghost predicate ReachedFrom(track: seq<Node>, r: Route, start: nat, stop: nat, i: int, d: int, j: nat, dist: int,
                              wanted: int) {
    && AreLegs(track, r.primary) && start <= i < stop && i < |r.primary|
    && 0 <= d < |r.detours| && r.primary[i].detour == d
    && InReach(track, r.detours[d], j, wanted - (dist + Span(track, r.primary, i) - Span(track, r.primary, start)))
  }

  lemma NothingElse(track: seq<Node>, r: Route, d: int, distance: int)
    ensures OnlyDetour(track, r, r, d, distance) && OnlyFirst(r, r, d, 0)
  {
  }

  lemma GivenSame(track: seq<Node>, table: Table, t: int, r: Route, r2: Route, c: set<Segment>)
    requires 0 <= t < |table| && RouteOk(track, r) && Given(track, table, t, r, r2, c)
    ensures SameLegs(r, r2)
  {
  }

  lemma InReachSame(track: seq<Node>, legs: seq<Leg>, legs2: seq<Leg>, j: nat, distance: int)
    requires InReach(track, legs2, j, distance) && AreLegs(track, legs) && |legs2| == |legs|
    requires forall x :: 0 <= x < |legs| ==> SegmentOf(legs2[x]) == SegmentOf(legs[x])
    ensures InReach(track, legs, j, distance)
  {
    hide Span;
    SameSpan(track, legs, legs2, j);
    forall x | 0 <= x <= j && x < |legs|
      ensures 0 <= legs[x].at.node < |track| && !track[legs[x].at.node].kind.Exit?
    {
      assert SegmentOf(legs2[x]) == SegmentOf(legs[x]);
    }
  }

  lemma SameRow(track: seq<Node>, r: Route, r2: Route, d: int)
    requires RouteOk(track, r) && SameLegs(r, r2) && 0 <= d < |r.detours|
    ensures |r2.detours| == |r.detours| && |r2.detours[d]| == |r.detours[d]| && AreLegs(track, r.detours[d])
    ensures forall x :: 0 <= x < |r.detours[d]| ==> SegmentOf(r2.detours[d][x]) == SegmentOf(r.detours[d][x])
  {
    RowLegs(track, r, d);
    SameSizes(r, r2);
    forall x | 0 <= x < |r.detours[d]|
      ensures SegmentOf(r2.detours[d][x]) == SegmentOf(r.detours[d][x])
    {
      assert HasLeg(r, d, x) && LegAt(r, d, x) == r.detours[d][x] && LegAt(r2, d, x) == r2.detours[d][x];
    }
  }

  lemma NothingBeyond(track: seq<Node>, r: Route, start: nat, dist: int, wanted: int)
    ensures DetoursWithin(track, r, r, start, start, dist, wanted)
  {
  }

  lemma PrimaryWithin(track: seq<Node>, r: Route, r2: Route, r3: Route, start: nat, stop: nat, dist: int, wanted: int)
    requires DetoursWithin(track, r, r2, start, stop, dist, wanted) && r3.detours == r2.detours
    ensures DetoursWithin(track, r, r3, start, stop, dist, wanted)
  {
    hide ReachedFrom;
    forall d, j | HasLeg(r, d, j) && HasLeg(r3, d, j) && d != PRIMARY && LegAt(r3, d, j) != LegAt(r, d, j)
      ensures exists i :: ReachedFrom(track, r, start, stop, i, d, j, dist, wanted)
    {
      assert HasLeg(r2, d, j) && LegAt(r2, d, j) == LegAt(r3, d, j);
    }
  }

  /** The detour at leg i has been given, and no other. */
  lemma WithinFurther(track: seq<Node>, r: Route, r3: Route, r4: Route, start: nat, i: nat, stop: nat, dist: int,
                      wanted: int)
    requires RouteOk(track, r) && SameLegs(r, r3) && SameLegs(r3, r4) && start <= i < |r.primary| && stop == i + 1
    requires AreLegs(track, r.primary) && DetoursWithin(track, r, r3, start, i, dist, wanted)
    requires r4 == r3 || OnlyDetour(track, r3, r4, r.primary[i].detour,
                                    wanted - (dist + Span(track, r.primary, i) - Span(track, r.primary, start)))
    ensures DetoursWithin(track, r, r4, start, stop, dist, wanted)
  {
    hide Span, InReach, RouteOk, AreLegs, Row;
    forall d, j | HasLeg(r, d, j) && HasLeg(r4, d, j) && d != PRIMARY && LegAt(r4, d, j) != LegAt(r, d, j)
      ensures exists i :: ReachedFrom(track, r, start, stop, i, d, j, dist, wanted)
    {
      assert HasLeg(r3, d, j);
      if LegAt(r3, d, j) != LegAt(r, d, j) {
        var k :| ReachedFrom(track, r, start, i, k, d, j, dist, wanted);
        assert ReachedFrom(track, r, start, stop, k, d, j, dist, wanted);
      } else {
        SameRow(track, r, r3, d);
        InReachSame(track, r.detours[d], r3.detours[d], j,
                    wanted - (dist + Span(track, r.primary, i) - Span(track, r.primary, start)));
        assert ReachedFrom(track, r, start, stop, i, d, j, dist, wanted);
      }
    }
  }

  lemma DetourIgnoresOwn(track: seq<Node>, table: Table, t: int, c: set<Segment>, legs: seq<Leg>, distance: int)
    requires 0 <= t < |table| && AreLegs(track, legs) && DetourGiven(track, table[t := c], t, legs, distance)
    ensures DetourGiven(track, table, t, legs, distance)
  {
    hide Free, Span;
    var k: nat :| k <= |legs| && DetourGivenUpTo(track, table[t := c], t, legs, k, distance);
    if k < |legs| {
      FreeIgnoresOwn(track, table, t, c, SegmentOf(legs[k]));
    }
    assert DetourGivenUpTo(track, table, t, legs, k, distance);
  }

  /** The first leg at a node, or the length of the row. */
  function FirstAt(legs: seq<Leg>, node: int): (i: nat)
    ensures i <= |legs| && (i < |legs| ==> legs[i].at.node == node)
    ensures forall j :: 0 <= j < i ==> legs[j].at.node != node
  {
    if legs == [] || legs[0].at.node == node then 0 else 1 + FirstAt(legs[1..], node)
  }

  ghost predicate NoExitUpTo(track: seq<Node>, legs: seq<Leg>, j: int)
    requires AreLegs(track, legs)
  {
    forall x :: 0 <= x <= j && x < |legs| ==> !track[legs[x].at.node].kind.Exit?
  }

  /** Leg j of a detour that is given for this distance may be raised. */
  ghost predicate InReach(track: seq<Node>, legs: seq<Leg>, j: nat, distance: int) {
    AreLegs(track, legs) && j < |legs| && Span(track, legs, j) < distance && NoExitUpTo(track, legs, j)
  }

  /** Nothing but detour d has changed, and that only as far as the distance goes. */
  ghost predicate OnlyDetour(track: seq<Node>, r: Route, r2: Route, d: int, distance: int) {
    forall x, j :: HasLeg(r, x, j) && HasLeg(r2, x, j) && LegAt(r2, x, j) != LegAt(r, x, j) ==>
      x == d && d >= 0 && InReach(track, r.detours[d], j, distance)
  }

  /** Of row d, only the first n legs have changed. */
  ghost predicate OnlyFirst(r: Route, r2: Route, d: int, n: int) {
    forall x, j :: HasLeg(r, x, j) && HasLeg(r2, x, j) && LegAt(r2, x, j) != LegAt(r, x, j) ==> x == d && j < n
  }

  lemma OneMoreChanged(r: Route, r2: Route, r3: Route, d: int, i: nat, reserved: int)
    requires SameLegs(r, r2) && OnlyFirst(r, r2, d, i) && HasLeg(r2, d, i)
    requires r3 == r2 || r3 == WithReserved(r2, d, i, reserved)
    ensures OnlyFirst(r, r3, d, i + 1)
  {
    hide Row;
  }

  lemma FirstIsWithin(track: seq<Node>, r: Route, r2: Route, d: int, k: nat, distance: int)
    requires 0 <= d < |r.detours| == |r2.detours| && OnlyFirst(r, r2, d, k)
    requires GivenSoFar(track, r.detours[d], r2.detours[d], k, distance)
    ensures OnlyDetour(track, r, r2, d, distance)
  {
    hide Span, IsSegment;
    forall x, j | HasLeg(r, x, j) && HasLeg(r2, x, j) && LegAt(r2, x, j) != LegAt(r, x, j)
      ensures x == d && InReach(track, r.detours[d], j, distance)
    {
      assert NoExitUpTo(track, r.detours[d], j);
    }
  }

  /** Where giving starts: at the train's last node, or, off the route, at the position
      that the first node's number happens to be. */
  function StartOf(r: Route, node: int): (start: nat) {
    var i := FirstAt(r.primary, node);
    if i < |r.primary| then i else if |r.primary| > 0 && r.primary[0].at.node >= 0 then r.primary[0].at.node else 0
  }

  /** The legs from `start` to `stop`, and no others, are reserved in full. */
  ghost predicate PrimaryGiven(track: seq<Node>, legs: seq<Leg>, legs2: seq<Leg>, start: nat, stop: nat)
    requires AreLegs(track, legs)
  {
    && |legs2| == |legs|
    && forall j :: 0 <= j < |legs| ==>
         legs2[j] == if start <= j < stop && legs[j].reserved < LengthOf(track, legs[j])
                     then legs[j].(reserved := LengthOf(track, legs[j])) else legs[j]
  }

  /** The detours that start at those legs are given as far as the train wants to go. */
  ghost predicate DetoursGiven(track: seq<Node>, table: Table, t: int, r: Route, r2: Route, start: nat, stop: nat,
                               dist: int, wanted: int)
    requires RouteOk(track, r) && RouteOk(track, r2)
  {
    forall j :: start <= j < stop ==> DetourAtGiven(track, table, t, r, r2, start, j, dist, wanted)
  }

  ghost predicate DetourAtGiven(track: seq<Node>, table: Table, t: int, r: Route, r2: Route, start: nat, j: nat,
                                dist: int, wanted: int)
    requires RouteOk(track, r) && RouteOk(track, r2)
  {
    start <= j < |r.primary| && 0 <= r.primary[j].detour < |r2.detours| ==>
      AreLegs(track, r.primary) && AreLegs(track, r2.detours[r.primary[j].detour]) &&
      DetourGiven(track, table, t, r2.detours[r.primary[j].detour],
                  wanted - (dist + Span(track, r.primary, j) - Span(track, r.primary, start)))
  }

  lemma NothingGivenYet(track: seq<Node>, table: Table, t: int, r: Route, start: nat, dist: int, wanted: int)
    requires RouteOk(track, r)
    ensures AreLegs(track, r.primary) && PrimaryGiven(track, r.primary, r.primary, start, start)
    ensures AllPass(track, table, t, r.primary, start, start, dist, wanted)
    ensures DetoursGiven(track, table, t, r, r, start, start, dist, wanted)
  {
    RowLegs(track, r, PRIMARY);
  }

  lemma GivenLeg(track: seq<Node>, legs: seq<Leg>, legs2: seq<Leg>, start: nat, i: nat)
    requires AreLegs(track, legs) && PrimaryGiven(track, legs, legs2, start, i) && i < |legs|
    ensures |legs2| == |legs| && legs2[i] == legs[i]
    ensures IsSegment(track, SegmentOf(legs[i])) && 0 <= legs[i].at.node < |track|
    ensures Span(track, legs, i + 1) == Span(track, legs, i) + LengthOf(track, legs[i])
  {
  }

  /** Leg i of the primary route has been raised, or was long enough. */
  lemma PrimaryFurther(track: seq<Node>, table: Table, t: int, r: Route, r2: Route, r3: Route, start: nat, i: nat,
                       dist: int, wanted: int)
    requires RouteOk(track, r) && RouteOk(track, r2) && AreLegs(track, r.primary) && start <= i < |r.primary|
    requires PrimaryGiven(track, r.primary, r2.primary, start, i)
    requires DetoursGiven(track, table, t, r, r2, start, i, dist, wanted)
    requires var leg := r.primary[i];
      r3 == if leg.reserved < LengthOf(track, leg) then WithReserved(r2, PRIMARY, i, LengthOf(track, leg)) else r2
    ensures RouteOk(track, r3) && |r3.primary| == |r.primary|
    ensures PrimaryGiven(track, r.primary, r3.primary, start, i + 1)
    ensures DetoursGiven(track, table, t, r, r3, start, i, dist, wanted)
  {
    hide IsSegment, DetourGiven, Span, Free;
    RouteStays(track, r2, r3);
    forall j | start <= j < i
      ensures DetourAtGiven(track, table, t, r, r3, start, j, dist, wanted)
    {
      assert DetourAtGiven(track, table, t, r, r2, start, j, dist, wanted);
    }
  }

  /** The detour at leg i has been given. */
  lemma DetoursFurther(track: seq<Node>, table: Table, t: int, r: Route, r2: Route, c2: set<Segment>, r3: Route,
                       c3: set<Segment>,
                       start: nat, i: nat, dist: int, wanted: int)
    requires 0 <= t < |table| && RouteOk(track, r) && RouteOk(track, r2) && RouteOk(track, r3)
    requires AreLegs(track, r.primary) && start <= i < |r.primary|
    requires DetoursGiven(track, table, t, r, r2, start, i, dist, wanted)
    requires Given(track, table[t := c2], t, r2, r3, c3)
    requires var d := r.primary[i].detour;
      0 <= d < |r3.detours| ==>
        AreLegs(track, r3.detours[d]) &&
        DetourGiven(track, table[t := c2], t, r3.detours[d],
                    wanted - (dist + Span(track, r.primary, i) - Span(track, r.primary, start)))
    ensures DetoursGiven(track, table, t, r, r3, start, i + 1, dist, wanted)
  {
    hide Free, DetourGiven, Span, RouteOk, Given, AreLegs;
    DetoursStayGiven(track, table, t, r, r2, c2, r3, c3, start, i, dist, wanted);
    var d := r.primary[i].detour;
    if 0 <= d < |r3.detours| {
      DetourIgnoresOwn(track, table, t, c2, r3.detours[d],
                       wanted - (dist + Span(track, r.primary, i) - Span(track, r.primary, start)));
    }
    assert DetourAtGiven(track, table, t, r, r3, start, i, dist, wanted);
  }

  lemma DetoursStayGiven(track: seq<Node>, table: Table, t: int, r: Route, r2: Route, c2: set<Segment>, r3: Route,
                         c3: set<Segment>,
                         start: nat, stop: nat, dist: int, wanted: int)
    requires 0 <= t < |table| && RouteOk(track, r) && RouteOk(track, r2) && RouteOk(track, r3)
    requires DetoursGiven(track, table, t, r, r2, start, stop, dist, wanted)
    requires Given(track, table[t := c2], t, r2, r3, c3)
    ensures DetoursGiven(track, table, t, r, r3, start, stop, dist, wanted)
  {
    hide Free, DetourGiven, Span, RouteOk;
    forall j | start <= j < stop
      ensures DetourAtGiven(track, table, t, r, r3, start, j, dist, wanted)
    {
      assert DetourAtGiven(track, table, t, r, r2, start, j, dist, wanted);
      if start <= j < |r.primary| && 0 <= r.primary[j].detour < |r3.detours| {
        var d := r.primary[j].detour;
        RowLegs(track, r3, d);
        RowRaised(track, table, t, r2, c2, r3, c3, d);
        DetourStaysGiven(track, table, t, r2.detours[d], r3.detours[d],
                         wanted - (dist + Span(track, r.primary, j) - Span(track, r.primary, start)));
      }
    }
  }

  lemma RowRaised(track: seq<Node>, table: Table, t: int, r2: Route, c2: set<Segment>, r3: Route, c3: set<Segment>,
                  d: int)
    requires 0 <= t < |table| && RouteOk(track, r2)
    requires Given(track, table[t := c2], t, r2, r3, c3) && 0 <= d < |r2.detours|
    ensures |r3.detours| == |r2.detours| && |r3.detours[d]| == |r2.detours[d]| && AreLegs(track, r2.detours[d])
    ensures forall j :: 0 <= j < |r2.detours[d]| ==> MayRaise(track, table, t, r2.detours[d][j], r3.detours[d][j])
  {
    hide Free;
    RowLegs(track, r2, d);
    SameSizes(r2, r3);
    forall j | 0 <= j < |r2.detours[d]|
      ensures MayRaise(track, table, t, r2.detours[d][j], r3.detours[d][j])
    {
      assert HasLeg(r2, d, j) && LegAt(r2, d, j) == r2.detours[d][j] && LegAt(r3, d, j) == r3.detours[d][j];
      FreeIgnoresOwn(track, table, t, c2, SegmentOf(r2.detours[d][j]));
    }
  }

  /** The whole of giving reservations to train t, which is `dist` past `node` and wants
      to be able to go as far as `wanted`. */
  ghost predicate Advanced(track: seq<Node>, table: Table, t: int, r: Route, r2: Route, c: set<Segment>, node: int,
                           dist: int, wanted: int) {
    && 0 <= t < |table| && RouteOk(track, r) && RouteOk(track, r2) && AreLegs(track, r.primary)
    && Given(track, table, t, r, r2, c)
    && exists stop: nat :: AdvancedTo(track, table, t, r, r2, StartOf(r, node), stop, dist, wanted)
  }

  ghost predicate AdvancedTo(track: seq<Node>, table: Table, t: int, r: Route, r2: Route, start: nat, stop: nat,
                             dist: int, wanted: int)
    requires RouteOk(track, r) && RouteOk(track, r2) && AreLegs(track, r.primary)
  {
    && GivenUpTo(track, table, t, r.primary, start, stop, dist, wanted)
    && PrimaryGiven(track, r.primary, r2.primary, start, stop)
    && DetoursGiven(track, table, t, r, r2, start, stop, dist, wanted)
    && DetoursWithin(track, r, r2, start, stop, dist, wanted)
  }

  /** The train has its route as far as it wants to go, or up to a place where it must
      reverse first, or where another train is in the way. */
  ghost predicate Satisfied(track: seq<Node>, table: Table, t: int, r: Route, node: int, dist: int, wanted: int) {
    && AreLegs(track, r.primary)
    && exists stop: nat :: SatisfiedTo(track, table, t, r.primary, StartOf(r, node), stop, dist, wanted)
  }

  ghost predicate SatisfiedTo(track: seq<Node>, table: Table, t: int, legs: seq<Leg>, start: nat, stop: nat,
                              dist: int, wanted: int)
    requires AreLegs(track, legs)
  {
    && start <= stop && InFull(track, legs, start, stop)
    && (stop < |legs| ==> MustStop(track, table, t, legs, start, stop, dist, wanted))
  }

  /** The legs from `start` to `stop` are reserved in full. */
  ghost predicate InFull(track: seq<Node>, legs: seq<Leg>, start: nat, stop: nat)
    requires AreLegs(track, legs)
  {
    forall j :: start <= j < stop ==> j < |legs| && legs[j].reserved >= LengthOf(track, legs[j])
  }

  ghost predicate MustStop(track: seq<Node>, table: Table, t: int, legs: seq<Leg>, start: nat, stop: nat, dist: int,
                           wanted: int)
    requires AreLegs(track, legs) && start <= stop < |legs|
  {
    || dist + Span(track, legs, stop) - Span(track, legs, start) >= wanted
    || (stop > start && legs[stop - 1].at.reverseHere)
    || !Free(track, table, t, SegmentOf(legs[stop]))
  }

  lemma AdvancedSatisfied(track: seq<Node>, table: Table, t: int, r: Route, r2: Route, c: set<Segment>, node: int,
                          dist: int, wanted: int)
    requires Advanced(track, table, t, r, r2, c, node, dist, wanted)
    ensures Satisfied(track, table[t := c], t, r2, node, dist, wanted)
  {
    hide Free, Span, Given, DetoursGiven, DetoursWithin, GivenUpTo, PrimaryGiven;
    var start := StartOf(r, node);
    var stop: nat :| AdvancedTo(track, table, t, r, r2, start, stop, dist, wanted);
    RowLegs(track, r2, PRIMARY);
    SameNodes(track, r.primary, r2.primary, start, stop);
    SameStart(r, r2, node);
    NowInFull(track, table, t, r.primary, r2.primary, start, stop, dist, wanted);
    assert SatisfiedTo(track, table[t := c], t, r2.primary, start, stop, dist, wanted) by {
      if stop < |r2.primary| {
        StillMustStop(track, table, t, r.primary, r2.primary, c, start, stop, dist, wanted);
      }
    }
  }

  lemma SameNodes(track: seq<Node>, legs: seq<Leg>, legs2: seq<Leg>, start: nat, stop: nat)
    requires AreLegs(track, legs) && PrimaryGiven(track, legs, legs2, start, stop)
    ensures |legs2| == |legs| && forall j :: 0 <= j < |legs| ==> legs2[j].at == legs[j].at
  {
  }

  lemma NowInFull(track: seq<Node>, table: Table, t: int, legs: seq<Leg>, legs2: seq<Leg>, start: nat, stop: nat,
                  dist: int, wanted: int)
    requires AreLegs(track, legs) && AreLegs(track, legs2) && PrimaryGiven(track, legs, legs2, start, stop)
    requires GivenUpTo(track, table, t, legs, start, stop, dist, wanted)
    ensures start <= stop && InFull(track, legs2, start, stop)
  {
    hide Free, Span;
    forall j | start <= j < stop
      ensures j < |legs| && legs2[j].reserved >= LengthOf(track, legs2[j])
    {
      assert Passes(track, table, t, legs, start, j, dist, wanted);
    }
  }

  lemma StillMustStop(track: seq<Node>, table: Table, t: int, legs: seq<Leg>, legs2: seq<Leg>, c: set<Segment>,
                      start: nat, stop: nat, dist: int, wanted: int)
    requires 0 <= t < |table| && AreLegs(track, legs) && AreLegs(track, legs2)
    requires PrimaryGiven(track, legs, legs2, start, stop)
    requires GivenUpTo(track, table, t, legs, start, stop, dist, wanted) && stop < |legs|
    ensures start <= stop < |legs2| && MustStop(track, table[t := c], t, legs2, start, stop, dist, wanted)
  {
    hide Free, Span;
    SameNodes(track, legs, legs2, start, stop);
    SameSpan(track, legs, legs2, stop);
    SameSpan(track, legs, legs2, start);
    FreeIgnoresOwn(track, table, t, c, SegmentOf(legs[stop]));
    assert !Passes(track, table, t, legs, start, stop, dist, wanted);
  }

  lemma SameStart(r: Route, r2: Route, node: int)
    requires |r2.primary| == |r.primary| && forall j :: 0 <= j < |r.primary| ==> r2.primary[j].at == r.primary[j].at
    ensures StartOf(r2, node) == StartOf(r, node)
  {
    var i, i2 := FirstAt(r.primary, node), FirstAt(r2.primary, node);
    assert i < |r.primary| ==> r2.primary[i].at.node == node;
    assert i2 < |r.primary| ==> r.primary[i2].at.node == node;
    assert !(i < i2) && !(i2 < i);
  }

  lemma FreeShrinks(track: seq<Node>, table: Table, table2: Table, t: int, s: Segment)
    requires |table| == |table2| && forall u :: 0 <= u < |table| ==> table[u] <= table2[u]
    ensures Free(track, table2, t, s) ==> Free(track, table, t, s)
  {
    hide Shares;
    assert forall u, b {:trigger b in table[u]} :: 0 <= u < |table| && b in table[u] ==> b in table2[u];
  }

  /** What other trains are given later does not matter. */
  lemma StaysSatisfied(track: seq<Node>, table: Table, table2: Table, t: int, r: Route, node: int, dist: int,
                       wanted: int)
    requires |table| == |table2| && forall u :: 0 <= u < |table| ==> table[u] <= table2[u]
    requires Satisfied(track, table, t, r, node, dist, wanted)
    ensures Satisfied(track, table2, t, r, node, dist, wanted)
  {
    hide InFull, MustStop, Free;
    var start := StartOf(r, node);
    var stop: nat :| SatisfiedTo(track, table, t, r.primary, start, stop, dist, wanted);
    assert SatisfiedTo(track, table2, t, r.primary, start, stop, dist, wanted) by {
      if stop < |r.primary| {
        MustStopStill(track, table, table2, t, r.primary, start, stop, dist, wanted);
      }
    }
  }

  lemma MustStopStill(track: seq<Node>, table: Table, table2: Table, t: int, legs: seq<Leg>, start: nat, stop: nat,
                      dist: int, wanted: int)
    requires |table| == |table2| && forall u :: 0 <= u < |table| ==> table[u] <= table2[u]
    requires AreLegs(track, legs) && start <= stop < |legs|
    requires MustStop(track, table, t, legs, start, stop, dist, wanted)
    ensures MustStop(track, table2, t, legs, start, stop, dist, wanted)
  {
    hide Free, Span;
    FreeShrinks(track, table, table2, t, SegmentOf(legs[stop]));
  }

  // ---------- Marks ----------

  /** The segments of c that are on the route. */
  ghost function OnlyOnRoute(r: Route, c: set<Segment>): (c2: set<Segment>)
    ensures c2 <= c
  {
    set s | s in c && OnRoute(r, s)
  }

  /** The place of a segment among the marks of the route. */
  function MarkOf(s: Segment): (x: int)
    ensures 0 <= s.0 < TRACK_MAX && 0 <= s.1 <= 1 ==>
      0 <= x < 2 * TRACK_MAX && x % TRACK_MAX == s.0 && x / TRACK_MAX == s.1
  {
    s.0 + TRACK_MAX * s.1
  }

  ghost predicate MarkedIn(legs: seq<Leg>, x: int) {
    exists j :: 0 <= j < |legs| && MarkOf(SegmentOf(legs[j])) == x
  }

  /** Marked in one of the first n rows, the primary route first. */
  ghost predicate MarkedBefore(r: Route, n: nat, x: int)
    requires n <= |r.detours| + 1
  {
    exists d {:trigger Row(r, d)} :: PRIMARY <= d < n - 1 && MarkedIn(Row(r, d), x)
  }

  lemma OneMoreMark(legs: seq<Leg>, i: nat)
    requires i < |legs|
    ensures forall x :: MarkedIn(legs[..i + 1], x) <==> MarkedIn(legs[..i], x) || x == MarkOf(SegmentOf(legs[i]))
  {
    hide MarkOf;
    forall x | MarkedIn(legs[..i], x) || x == MarkOf(SegmentOf(legs[i]))
      ensures MarkedIn(legs[..i + 1], x)
    {
      if MarkedIn(legs[..i], x) {
        var j :| 0 <= j < i && MarkOf(SegmentOf(legs[..i][j])) == x;
        assert legs[..i + 1][j] == legs[j];
      } else {
        assert legs[..i + 1][i] == legs[i];
      }
    }
    forall x | MarkedIn(legs[..i + 1], x) && x != MarkOf(SegmentOf(legs[i]))
      ensures MarkedIn(legs[..i], x)
    {
      var j :| 0 <= j < i + 1 && MarkOf(SegmentOf(legs[..i + 1][j])) == x;
      assert legs[..i][j] == legs[j];
    }
  }

  lemma MarkedOnRoute(track: seq<Node>, r: Route, s: Segment)
    requires RouteOk(track, r) && |track| == TRACK_MAX && 0 <= s.0 < TRACK_MAX && 0 <= s.1 <= 1
    ensures MarkedBefore(r, |r.detours| + 1, MarkOf(s)) <==> OnRoute(r, s)
  {
    if OnRoute(r, s) {
      var d, j :| HasLeg(r, d, j) && SegmentOf(LegAt(r, d, j)) == s;
      assert MarkedIn(Row(r, d), MarkOf(s));
    }
    if MarkedBefore(r, |r.detours| + 1, MarkOf(s)) {
      var d :| PRIMARY <= d < |r.detours| && MarkedIn(Row(r, d), MarkOf(s));
      var j :| 0 <= j < |Row(r, d)| && MarkOf(SegmentOf(Row(r, d)[j])) == MarkOf(s);
      assert HasLeg(r, d, j);
      assert SegmentOf(LegAt(r, d, j)) == s;
    }
  }

  /** Rows before d, and row d as far as leg i, count on nothing. */
  ghost predicate ClearedUpTo(r: Route, r2: Route, d: int, i: nat) {
    && SameLegs(r, r2)
    && forall x, y :: HasLeg(r, x, y) && (x < d || (x == d && y < i)) ==> LegAt(r2, x, y).reserved == 0
  }

  ghost predicate Cleared(r: Route, r2: Route) {
    SameLegs(r, r2) && forall x, y :: HasLeg(r, x, y) ==> LegAt(r2, x, y).reserved == 0
  }

  lemma ClearedSound(track: seq<Node>, r: Route, r2: Route, c: set<Segment>)
    requires RouteOk(track, r) && Cleared(r, r2)
    ensures TrainSound(track, r2, c, false, false)
  {
    hide Row, IsSegment;
    SameLegsKeeps(track, r, r2);
  }

  // ---------- Where a train stands ----------

  datatype SwitchReading = Straight | Curved | Unknown

  const TRAIN_LENGTH := 200

  /** The edge that a train is expected to take. */
  function ExpectedEdge(track: seq<Node>, switches: seq<SwitchReading>, node: int): (e: int)
    requires IsNode(track, node) && |switches| == |track|
    ensures !track[node].kind.Exit? ==> HasEdge(track, node, e)
    ensures e == 1 <==> track[node].kind.Branch? && switches[node].Curved?
    ensures 0 <= e <= 1
  {
    if track[node].kind.Branch? && switches[node].Curved? then 1 else 0
  }

  /** The segments under a train that reaches from distance `len` before the node on; when
      `both` is set, both edges of every branch on the way. */
  ghost function Under(track: seq<Node>, switches: seq<SwitchReading>, node: int, edge: int, len: int,
                       both: bool): (c: set<Segment>)
    requires TrackOk(track) && |switches| == |track| && IsSegment(track, (node, edge))
    ensures forall s :: s in c ==> IsSegment(track, s)
    decreases if len < TRAIN_LENGTH then TRAIN_LENGTH - len else 0
  {
    if len >= TRAIN_LENGTH || track[node].kind.Exit? then {}
    else
      assert EdgeOk(track, node, edge);
      var next := Dest(track, node, edge);
      Standing(track, node, edge, both) +
        Under(track, switches, next, ExpectedEdge(track, switches, next), len + Dist(track, node, edge), both)
  }

  ghost function Standing(track: seq<Node>, node: int, edge: int, both: bool): (c: set<Segment>)
    requires HasEdge(track, node, edge)
    ensures forall s :: s in c ==> HasEdge(track, s.0, s.1)
  {
    if both && track[node].kind.Branch? then {(node, 0), (node, 1)} else {(node, edge)}
  }

  /** What train t holds once it has tried to take all of `c`. */
  ghost function Taking(track: seq<Node>, table: Table, t: int, c: set<Segment>): (c2: set<Segment>)
    requires 0 <= t < |table|
    ensures Grants(track, table, t, c2) && table[t] <= c2
  {
    table[t] + set s | s in c && Free(track, table, t, s)
  }

  /** Taking more afterwards. */
  lemma TakingMore(track: seq<Node>, table: Table, t: int, c: set<Segment>, s: Segment)
    requires 0 <= t < |table|
    ensures var c2 := Taking(track, table, t, c);
      Taking(track, table, t, c + {s}) == if Free(track, table[t := c2], t, s) then c2 + {s} else c2
  {
    hide Free;
    FreeIgnoresOwn(track, table, t, Taking(track, table, t, c), s);
  }

  lemma TakingNothing(track: seq<Node>, table: Table, t: int)
    requires 0 <= t < |table|
    ensures table[t := Taking(track, table, t, {})] == table
  {
    hide Free;
    assert Taking(track, table, t, {}) == table[t];
  }

  lemma TakingSound(track: seq<Node>, table: Table, t: int, r: Route, c: set<Segment>, tampered: bool, clashed: bool)
    requires 0 <= t < |table| && TrainSound(track, r, table[t], tampered, clashed)
    ensures TrainSound(track, r, Taking(track, table, t, c), tampered, clashed)
  {
    hide Free, IsSegment;
  }
}
