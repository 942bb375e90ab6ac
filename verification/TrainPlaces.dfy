/** Which track a train has once it has said where it stands, told by ways along the
    switches, whatever way the server goes about it. */
module TrainPlaces {
  import opened Track
  import opened RouteSearch
  import opened Reservations
  import opened RouteServers

  const LONGEST_TRAIN := 200

  /** The edge that the segment is. */
  function EdgeAt(track: seq<Node>, s: Segment): (e: Edge)
    requires 0 <= s.0 < |track|
  {
    if s.1 == 0 then track[s.0].ahead else track[s.0].curved
  }

  /** Segments one after the other, along the curve where a switch is set to it, and not on
      past an exit. */
  ghost predicate IsWay(track: seq<Node>, switches: seq<SwitchReading>, p: seq<Segment>)
    requires |switches| == |track|
    decreases |p|
  {
    && p != [] && 0 <= p[0].0 < |track|
    && (|p| > 1 ==>
          && !track[p[0].0].kind.Exit?
          && var v := EdgeAt(track, p[0]).dest;
            && 0 <= v < |track|
            && p[1] == (v, if track[v].kind.Branch? && switches[v].Curved? then 1 else 0)
            && IsWay(track, switches, p[1..]))
  }

  /** How far the last segment begins from the beginning of the first. */
  ghost function WayLength(track: seq<Node>, switches: seq<SwitchReading>, p: seq<Segment>): (d: int)
    requires |switches| == |track| && IsWay(track, switches, p)
    decreases |p|
  {
    if |p| == 1 then 0 else EdgeAt(track, p[0]).dist + WayLength(track, switches, p[1..])
  }

  /** The way leads from the first segment to the last, which is no exit and begins less than
      a train's length from the train, `before` units before the first. */
  ghost predicate Reaches(track: seq<Node>, switches: seq<SwitchReading>, first: Segment, before: int, p: seq<Segment>,
                          last: Segment)
    requires |switches| == |track|
  {
    && IsWay(track, switches, p) && p[0] == first && p[|p| - 1] == last
    && 0 <= last.0 < |track| && !track[last.0].kind.Exit?
    && before + WayLength(track, switches, p) < LONGEST_TRAIN
  }

  /** The other edge of a branch goes with the one. */
  ghost predicate With(track: seq<Node>, s: Segment, last: Segment, both: bool) {
    s == last || (both && 0 <= s.0 < |track| && track[s.0].kind.Branch? && s.0 == last.0 && 0 <= s.1 <= 1)
  }

  // ---------- What is under a train is what such ways reach ----------

  lemma {:induction false} ReachedUnder(track: seq<Node>, switches: seq<SwitchReading>, node: int, edge: int, len: int,
                                        both: bool, p: seq<Segment>, s: Segment)
    requires TrackOk(track) && |switches| == |track| && IsSegment(track, (node, edge))
    requires p != [] && Reaches(track, switches, (node, edge), len, p, p[|p| - 1]) && With(track, s, p[|p| - 1], both)
    ensures s in Under(track, switches, node, edge, len, both)
    decreases |p|
  {
    hide WellFormed, IsSegment;
    if |p| == 1 {
      UnderHere(track, switches, node, edge, len, both);
    } else {
      WayGrows(track, switches, p);
      WayGrows(track, switches, p[1..]);
      UnderStep(track, switches, node, edge, len, both);
      ReachedUnder(track, switches, p[1].0, p[1].1, len + EdgeAt(track, p[0]).dist, both, p[1..], s);
    }
  }

  lemma UnderHere(track: seq<Node>, switches: seq<SwitchReading>, node: int, edge: int, len: int, both: bool)
    requires TrackOk(track) && |switches| == |track| && IsSegment(track, (node, edge))
    requires len < LONGEST_TRAIN && !track[node].kind.Exit?
    ensures (node, edge) in Under(track, switches, node, edge, len, both)
    ensures both && track[node].kind.Branch? ==>
      (node, 0) in Under(track, switches, node, edge, len, both)
      && (node, 1) in Under(track, switches, node, edge, len, both)
  {
    hide WellFormed;
  }

  /** Ways are as long as their segments, none of which has a negative length. */
  lemma {:induction false} WayGrows(track: seq<Node>, switches: seq<SwitchReading>, p: seq<Segment>)
    requires TrackOk(track) && |switches| == |track| && IsWay(track, switches, p) && IsSegment(track, p[0])
    ensures 0 <= WayLength(track, switches, p)
    ensures |p| > 1 ==> IsSegment(track, p[1]) && 0 <= EdgeAt(track, p[0]).dist
    decreases |p|
  {
    if |p| > 1 {
      assert EdgeOk(track, p[0].0, p[0].1);
      WayGrows(track, switches, p[1..]);
    }
  }

  lemma {:induction false} UnderReached(track: seq<Node>, switches: seq<SwitchReading>, node: int, edge: int, len: int,
                                        both: bool, s: Segment) returns (p: seq<Segment>)
    requires TrackOk(track) && |switches| == |track| && IsSegment(track, (node, edge))
    requires s in Under(track, switches, node, edge, len, both)
    ensures p != [] && Reaches(track, switches, (node, edge), len, p, p[|p| - 1]) && With(track, s, p[|p| - 1], both)
    decreases if len < TRAIN_LENGTH then TRAIN_LENGTH - len else 0
  {
    hide WellFormed, IsSegment;
    if len >= TRAIN_LENGTH || track[node].kind.Exit? {
      UnderEnds(track, switches, node, edge, len, both);
      p := [];
    } else {
      UnderStep(track, switches, node, edge, len, both);
      if s in Standing(track, node, edge, both) {
        p := [(node, edge)];
      } else {
        var next := Dest(track, node, edge);
        var rest := UnderReached(track, switches, next, ExpectedEdge(track, switches, next),
                                 len + Dist(track, node, edge), both, s);
        p := [(node, edge)] + rest;
        assert p[1..] == rest;
      }
    }
  }

  // ---------- What the train has afterwards ----------

  /** The train has the segment, or another train holds that piece of track. */
  ghost predicate Has(track: seq<Node>, table: Table, t: int, c: set<Segment>, s: Segment) {
    s in c || exists u, b :: HeldBy(track, table, t, u, b, s)
  }

  ghost predicate HeldBy(track: seq<Node>, table: Table, t: int, u: int, b: Segment, s: Segment) {
    0 <= u < |table| && u != t && b in table[u] && (s == b || IsMirror(track, s.0, s.1, b.0, b.1))
  }

  lemma TakingHas(track: seq<Node>, table: Table, t: int, c: set<Segment>)
    requires 0 <= t < |table|
    ensures forall s :: s in c ==> Has(track, table, t, Taking(track, table, t, c), s)
    ensures forall s :: s in Taking(track, table, t, c) ==> s in table[t] || s in c
  {
    forall s | s in c
      ensures Has(track, table, t, Taking(track, table, t, c), s)
    {
      if !Free(track, table, t, s) {
        var u, b :| 0 <= u < |table| && u != t && b in table[u] && Shares(track, s, b);
        assert HeldBy(track, table, t, u, b, s);
      }
    }
  }

  /** Two pieces of track are tried, one after the other. */
  lemma TakingTwice(track: seq<Node>, table: Table, t: int, front: set<Segment>, back: set<Segment>)
    requires 0 <= t < |table| && table[t] == {}
    ensures
      var table2 := table[t := Taking(track, table, t, front)];
      var c := Taking(track, table2, t, back);
      && (forall s :: s in front || s in back ==> Has(track, table, t, c, s))
      && (forall s :: s in c ==> s in front || s in back)
  {
    var table2 := table[t := Taking(track, table, t, front)];
    var c := Taking(track, table2, t, back);
    TakingHas(track, table, t, front);
    TakingHas(track, table2, t, back);
    forall s | s in front || s in back
      ensures Has(track, table, t, c, s)
    {
      if s !in c && s in back {
        var u, b :| HeldBy(track, table2, t, u, b, s);
        assert HeldBy(track, table, t, u, b, s);
      }
    }
  }

  /** Every segment that ways out of `first` reach is had. */
  ghost predicate AllHad(track: seq<Node>, switches: seq<SwitchReading>, table: Table, t: int, c: set<Segment>,
                         first: Segment, before: int, both: bool)
    requires |switches| == |track|
  {
    forall p, last, s :: Reaches(track, switches, first, before, p, last) && With(track, s, last, both) ==>
      Has(track, table, t, c, s)
  }

  /** Some way out of `first` reaches the segment. */
  ghost predicate OnWay(track: seq<Node>, switches: seq<SwitchReading>, first: Segment, before: int, both: bool,
                        s: Segment)
    requires |switches| == |track|
  {
    exists p, last :: Reaches(track, switches, first, before, p, last) && With(track, s, last, both)
  }

  lemma UnderIsWays(track: seq<Node>, switches: seq<SwitchReading>, first: Segment, len: int, both: bool)
    requires TrackOk(track) && |switches| == |track| && IsSegment(track, first)
    ensures forall s :: s in Under(track, switches, first.0, first.1, len, both) <==>
      OnWay(track, switches, first, len, both, s)
  {
    hide WellFormed, IsSegment, Under, IsWay, WayLength;
    forall s
      ensures s in Under(track, switches, first.0, first.1, len, both) <==> OnWay(track, switches, first, len, both, s)
    {
      if s in Under(track, switches, first.0, first.1, len, both) {
        var p := UnderReached(track, switches, first.0, first.1, len, both, s);
        assert Reaches(track, switches, first, len, p, p[|p| - 1]);
      }
      forall p, last | Reaches(track, switches, first, len, p, last) && With(track, s, last, both)
        ensures s in Under(track, switches, first.0, first.1, len, both)
      {
        NotEmpty(track, switches, p);
        ReachedUnder(track, switches, first.0, first.1, len, both, p, s);
      }
    }
  }

  lemma NotEmpty(track: seq<Node>, switches: seq<SwitchReading>, p: seq<Segment>)
    requires |switches| == |track| && IsWay(track, switches, p)
    ensures p != []
  {
  }

  /** Once a train has said that it stands at a sensor, it has every segment less than a
      train's length in front of the sensor, and behind it, there with both edges of every
      branch; and nothing else. */
  lemma AtSensor(track: seq<Node>, m: Message, env: Readings, t: int, table: Table, r: Route, mid: Table, r2: Route,
                 ok: bool)
    requires TrackOk(track) && Proper(track, m, env) && 0 <= t < |table| == |mid| && m.ReserveWhereIAm?
    requires Effect(track, m, env, t, table, r, mid, r2, ok)
    ensures
      var front, behind := (m.sensor, 0), (track[m.sensor].reverse, 0);
      && AllHad(track, env.switches, table, t, mid[t], front, 0, false)
      && AllHad(track, env.switches, table, t, mid[t], behind, 0, true)
      && (forall s :: s in mid[t] ==>
            OnWay(track, env.switches, front, 0, false, s) || OnWay(track, env.switches, behind, 0, true, s))
  {
    hide WellFormed, Under, Taking, Reaches, With, Has;
    NodesHere(track, m.sensor);
    var front, behind: Segment := (m.sensor, 0), (track[m.sensor].reverse, 0);
    UnderIsWays(track, env.switches, front, 0, false);
    UnderIsWays(track, env.switches, behind, 0, true);
    var empty := table[t := {}];
    TakingTwice(track, empty, t, Under(track, env.switches, front.0, 0, 0, false),
                Under(track, env.switches, behind.0, 0, 0, true));
    StillHas(track, table, t, mid[t]);
  }

  lemma NodesHere(track: seq<Node>, u: int)
    requires TrackOk(track) && IsNode(track, u)
    ensures 0 <= u < |track| == TRACK_MAX && IsNode(track, track[u].reverse)
    ensures IsSegment(track, (u, 0)) && IsSegment(track, (track[u].reverse, 0))
  {
    assert ReverseOk(track, u);
  }

  /** The train's own column does not matter. */
  lemma StillHas(track: seq<Node>, table: Table, t: int, c: set<Segment>)
    requires 0 <= t < |table|
    ensures forall s :: Has(track, table[t := {}], t, c, s) ==> Has(track, table, t, c, s)
  {
    forall s | Has(track, table[t := {}], t, c, s)
      ensures Has(track, table, t, c, s)
    {
      if s !in c {
        var u, b :| HeldBy(track, table[t := {}], t, u, b, s);
        assert HeldBy(track, table, t, u, b, s);
      }
    }
  }

  /** The segment that a position is on: the curve at a branch whose switch is set to it. */
  function SegmentAt(track: seq<Node>, switches: seq<SwitchReading>, node: int): (s: Segment)
    requires 0 <= node < |track| == |switches|
  {
    (node, if track[node].kind.Branch? && switches[node].Curved? then 1 else 0)
  }

  /** Segment b runs back along segment a. */
  ghost predicate Opposite(track: seq<Node>, a: Segment, b: Segment) {
    IsMirror(track, a.0, a.1, b.0, b.1)
  }

  lemma OneMirror(track: seq<Node>, s: Segment, a: Segment)
    requires TrackOk(track) && Opposite(track, s, a)
    ensures forall b: Segment :: Opposite(track, s, b) ==> b == a
  {
  }

  /** Once a train has said at which position it stands, it has every segment less than a
      train's length from there both ways, on the edge that the switches show and on. */
  lemma AtPosition(track: seq<Node>, m: Message, env: Readings, t: int, table: Table, r: Route, mid: Table, r2: Route,
                   ok: bool)
    requires TrackOk(track) && Proper(track, m, env) && 0 <= t < |table| == |mid| && m.ReserveWhereIAmPos?
    requires Effect(track, m, env, t, table, r, mid, r2, ok) && !track[m.pos.node].kind.Exit?
    ensures
      var front := SegmentAt(track, env.switches, m.pos.node);
      var before := m.pos.offset - EdgeAt(track, front).dist;
      && AllHad(track, env.switches, table, t, mid[t], front, -m.pos.offset, false)
      && (forall back: Segment :: Opposite(track, front, back) ==>
            AllHad(track, env.switches, table, t, mid[t], back, before, false))
      && exists back: Segment :: Opposite(track, front, back) && forall s :: s in mid[t] ==>
          || OnWay(track, env.switches, front, -m.pos.offset, false, s)
          || OnWay(track, env.switches, back, before, false, s)
  {
    hide WellFormed, Under, Taking, Reaches, With, Has;
    NodesHere(track, m.pos.node);
    var front := SegmentAt(track, env.switches, m.pos.node);
    var back := ReversePosition(track, env.switches, m.pos);
    var second: Segment := (back.0, back.1);
    UnderIsWays(track, env.switches, front, -m.pos.offset, false);
    UnderIsWays(track, env.switches, second, -back.2, false);
    TakingTwice(track, table[t := {}], t, Under(track, env.switches, front.0, front.1, -m.pos.offset, false),
                Under(track, env.switches, second.0, second.1, -back.2, false));
    var before := m.pos.offset - EdgeAt(track, front).dist;
    assert Opposite(track, front, second) && -back.2 == before;
    OneMirror(track, front, second);
    StillHas(track, table, t, mid[t]);
    assert AllHad(track, env.switches, table, t, mid[t], second, before, false);
    assert forall s :: s in mid[t] ==>
        || OnWay(track, env.switches, front, -m.pos.offset, false, s)
        || OnWay(track, env.switches, second, before, false, s);
  }

  /** Past an exit there is only the way back. */
  lemma AtExit(track: seq<Node>, m: Message, env: Readings, t: int, table: Table, r: Route, mid: Table, r2: Route,
               ok: bool)
    requires TrackOk(track) && Proper(track, m, env) && 0 <= t < |table| == |mid| && m.ReserveWhereIAmPos?
    requires Effect(track, m, env, t, table, r, mid, r2, ok) && track[m.pos.node].kind.Exit?
    ensures
      var back := (track[m.pos.node].reverse, 0);
      && AllHad(track, env.switches, table, t, mid[t], back, m.pos.offset, false)
      && forall s :: s in mid[t] ==> OnWay(track, env.switches, back, m.pos.offset, false, s)
  {
    hide WellFormed, Under, Taking, Reaches, With, Has;
    NodesHere(track, m.pos.node);
    var front, back: Segment := (m.pos.node, 0), (track[m.pos.node].reverse, 0);
    UnderEnds(track, env.switches, front.0, front.1, -m.pos.offset, false) by { NodesHere(track, m.pos.node); }
    UnderIsWays(track, env.switches, back, m.pos.offset, false);
    TakingTwice(track, table[t := {}], t, Under(track, env.switches, front.0, front.1, -m.pos.offset, false),
                Under(track, env.switches, back.0, 0, m.pos.offset, false));
    StillHas(track, table, t, mid[t]);
  }

  /** What the server gives afterwards adds to it: also when the message is done, the train
      has the track in front of the sensor and behind it. */
  lemma SensorHandled(track: seq<Node>, v: Visit, m: Message, env: Readings)
    requires TrackOk(track) && Proper(track, m, env) && m.ReserveWhereIAm? && IsVisit(track, v, m, env) && v.t >= 0
    ensures
      var c := v.after.table[v.t];
      && AllHad(track, env.switches, v.before.table, v.t, c, (m.sensor, 0), 0, false)
      && AllHad(track, env.switches, v.before.table, v.t, c, (track[m.sensor].reverse, 0), 0, true)
  {
    hide WellFormed, Effect, OnlyGiven, Reaches, With, Has, Proper;
    AtSensor(track, m, env, v.t, v.before.table, v.before.routes[v.t], v.mid, v.midRoutes[v.t], v.ok);
    VisitGrows(track, v, m, env);
    MoreHas(track, v.before.table, v.t, v.mid[v.t], v.after.table[v.t]);
  }

  lemma PositionHandled(track: seq<Node>, v: Visit, m: Message, env: Readings)
    requires TrackOk(track) && Proper(track, m, env) && m.ReserveWhereIAmPos? && IsVisit(track, v, m, env) && v.t >= 0
    requires !track[m.pos.node].kind.Exit?
    ensures
      var front, c := SegmentAt(track, env.switches, m.pos.node), v.after.table[v.t];
      && AllHad(track, env.switches, v.before.table, v.t, c, front, -m.pos.offset, false)
      && forall back: Segment :: Opposite(track, front, back) ==>
          AllHad(track, env.switches, v.before.table, v.t, c, back, m.pos.offset - EdgeAt(track, front).dist, false)
  {
    hide WellFormed, Effect, OnlyGiven, Reaches, With, Has, Proper, IsMirror;
    AtPosition(track, m, env, v.t, v.before.table, v.before.routes[v.t], v.mid, v.midRoutes[v.t], v.ok);
    VisitGrows(track, v, m, env);
    MoreHas(track, v.before.table, v.t, v.mid[v.t], v.after.table[v.t]);
  }

  lemma VisitGrows(track: seq<Node>, v: Visit, m: Message, env: Readings)
    requires TrackOk(track) && Proper(track, m, env) && IsVisit(track, v, m, env) && v.t >= 0
    ensures Full(v.before) && Full(v.after) && |v.mid| == MAX_TRAINS && v.t < MAX_TRAINS
    ensures v.mid[v.t] <= v.after.table[v.t]
  {
    hide WellFormed, Effect, OnlyGiven, Proper;
    if v.ok {
      GivenGrows(track, v.mid, v.midRoutes, v.after.table, v.after.routes, v.after.wanted, v.after.places,
                 v.after.numTrains);
    }
  }

  lemma MoreHas(track: seq<Node>, table: Table, t: int, c: set<Segment>, c2: set<Segment>)
    requires c <= c2
    ensures forall s :: Has(track, table, t, c, s) ==> Has(track, table, t, c2, s)
  {
  }
}
