/** What a train gives up when it has passed part of its route, told from what its route and
    its column were before; and whether it still holds all that its route counts on. */
module Releases {
  import opened Reservations
  import opened Track

  /** The segments that a row counts on. */
  ghost function Counted(r: Route, d: int): (c: set<Segment>) {
    if 0 <= d < |r.detours| then
      set j | 0 <= j < |r.detours[d]| && r.detours[d][j].reserved > 0 :: SegmentOf(r.detours[d][j])
    else {}
  }

  /** What is given up on the first n legs of the primary route, by a train that held c. */
  ghost function GivenUp(r: Route, c: set<Segment>, n: nat): (gone: set<Segment>)
    requires n <= |r.primary|
    decreases n, 0
  {
    if n == 0 then {}
    else if Gives(r, c, n - 1) then
      GivenUp(r, c, n - 1) + {SegmentOf(r.primary[n - 1])} + Counted(r, r.primary[n - 1].detour)
    else GivenUp(r, c, n - 1)
  }

  /** Leg i of the primary route gives up its segment and its detour: it counts on the
      segment, or the train holds it still. */
  ghost predicate Gives(r: Route, c: set<Segment>, i: nat)
    requires i < |r.primary|
    decreases i, 1
  {
    r.primary[i].reserved > 0 || (SegmentOf(r.primary[i]) in c && SegmentOf(r.primary[i]) !in GivenUp(r, c, i))
  }

  /** Leg j of row d no longer counts on anything once the first n legs are passed. */
  ghost predicate Dropped(r: Route, c: set<Segment>, n: nat, d: int, j: int)
    requires n <= |r.primary|
  {
    && HasLeg(r, d, j)
    && if d == PRIMARY then j < n && Gives(r, c, j)
       else LegAt(r, d, j).reserved > 0 && exists i :: GivesDetour(r, c, n, i, d)
  }

  ghost predicate GivesDetour(r: Route, c: set<Segment>, n: nat, i: int, d: int)
    requires n <= |r.primary|
  {
    0 <= i < n && r.primary[i].detour == d && Gives(r, c, i)
  }

  /** Exactly the dropped legs have their reserved lengths set to zero. */
  ghost predicate ReleasedTo(r: Route, c: set<Segment>, n: nat, r2: Route) {
    && n <= |r.primary| && SameLegs(r, r2)
    && forall d, j :: HasLeg(r, d, j) ==>
         LegAt(r2, d, j) == if Dropped(r, c, n, d, j) then LegAt(r, d, j).(reserved := 0) else LegAt(r, d, j)
  }

  /** A leg that is kept counts on the same segment as one that is dropped. */
  ghost predicate Clashes(r: Route, c: set<Segment>, n: nat)
    requires n <= |r.primary|
  {
    exists d, j, x, y :: Clash(r, c, n, d, j, x, y)
  }

  ghost predicate Clash(r: Route, c: set<Segment>, n: nat, d: int, j: int, x: int, y: int)
    requires n <= |r.primary|
  {
    && Dropped(r, c, n, d, j)
    && HasLeg(r, x, y) && LegAt(r, x, y).reserved > 0 && !Dropped(r, c, n, x, y)
    && SegmentOf(LegAt(r, d, j)) == SegmentOf(LegAt(r, x, y))
  }

  // ---------- What is given up is what dropped legs were on ----------

  lemma {:induction false} GivesEarly(r: Route, c: set<Segment>, i: nat, n: nat)
    requires i < n <= |r.primary|
    ensures GivenUp(r, c, i) <= GivenUp(r, c, n)
    ensures Gives(r, c, i) ==> SegmentOf(r.primary[i]) in GivenUp(r, c, n)
    ensures Gives(r, c, i) ==> Counted(r, r.primary[i].detour) <= GivenUp(r, c, n)
    decreases n
  {
    if i < n - 1 {
      GivesEarly(r, c, i, n - 1);
    }
  }

  lemma DroppedIsGiven(r: Route, c: set<Segment>, n: nat, d: int, j: int)
    requires n <= |r.primary| && Dropped(r, c, n, d, j)
    ensures SegmentOf(LegAt(r, d, j)) in GivenUp(r, c, n)
  {
    hide Gives, GivenUp;
    if d == PRIMARY {
      GivesEarly(r, c, j, n);
    } else {
      var i :| GivesDetour(r, c, n, i, d);
      GivesEarly(r, c, i, n);
    }
  }

  lemma {:induction false} GivenWasDropped(r: Route, c: set<Segment>, n: nat, s: Segment)
    requires n <= |r.primary| && s in GivenUp(r, c, n)
    ensures exists d, j :: Dropped(r, c, n, d, j) && SegmentOf(LegAt(r, d, j)) == s
    decreases n
  {
    if s in GivenUp(r, c, n - 1) {
      GivenWasDropped(r, c, n - 1, s);
      var d, j :| Dropped(r, c, n - 1, d, j) && SegmentOf(LegAt(r, d, j)) == s;
      DroppedLater(r, c, n - 1, n, d, j);
    } else if s == SegmentOf(r.primary[n - 1]) {
      assert Dropped(r, c, n, PRIMARY, n - 1);
    } else {
      var d := r.primary[n - 1].detour;
      var j :| 0 <= j < |r.detours[d]| && r.detours[d][j].reserved > 0 && SegmentOf(r.detours[d][j]) == s;
      assert GivesDetour(r, c, n, n - 1, d) && HasLeg(r, d, j);
      assert Dropped(r, c, n, d, j);
    }
  }

  lemma DroppedLater(r: Route, c: set<Segment>, i: nat, n: nat, d: int, j: int)
    requires i <= n <= |r.primary| && Dropped(r, c, i, d, j)
    ensures Dropped(r, c, n, d, j)
  {
    hide Gives;
    if d != PRIMARY {
      var k :| GivesDetour(r, c, i, k, d);
      assert GivesDetour(r, c, n, k, d);
    }
  }

  // ---------- When nothing is lost ----------

  /** A train that held all that its route counts on still does after the release exactly
      if no leg that is kept counts on a segment of one that is dropped. */
  lemma ReleaseKeepsBacked(r: Route, c: set<Segment>, n: nat, r2: Route)
    requires Backed(r, c) && ReleasedTo(r, c, n, r2)
    ensures Backed(r2, c - GivenUp(r, c, n)) <==> !Clashes(r, c, n)
  {
    hide Gives, GivenUp, Dropped, Row;
    if Clashes(r, c, n) {
      var d, j, x, y :| Clash(r, c, n, d, j, x, y);
      DroppedIsGiven(r, c, n, d, j);
      assert HasLeg(r2, x, y) && LegAt(r2, x, y) == LegAt(r, x, y);
    } else {
      forall x, y | HasLeg(r2, x, y) && LegAt(r2, x, y).reserved > 0
        ensures SegmentOf(LegAt(r2, x, y)) in c - GivenUp(r, c, n)
      {
        assert HasLeg(r, x, y) && !Dropped(r, c, n, x, y);
        if SegmentOf(LegAt(r, x, y)) in GivenUp(r, c, n) {
          GivenClashes(r, c, n, x, y);
        }
      }
    }
  }

  lemma GivenClashes(r: Route, c: set<Segment>, n: nat, x: int, y: int)
    requires n <= |r.primary|
    requires HasLeg(r, x, y) && LegAt(r, x, y).reserved > 0 && !Dropped(r, c, n, x, y)
    requires SegmentOf(LegAt(r, x, y)) in GivenUp(r, c, n)
    ensures Clashes(r, c, n)
  {
    hide Gives, GivenUp, Row;
    var s := SegmentOf(LegAt(r, x, y));
    GivenWasDropped(r, c, n, s);
    var d, j :| Dropped(r, c, n, d, j) && SegmentOf(LegAt(r, d, j)) == s;
    assert Clash(r, c, n, d, j, x, y);
  }

  /** On a route that passes nothing twice there is no clash. */
  lemma SimpleNeverClashes(r: Route, c: set<Segment>, n: nat)
    requires Simple(r) && n <= |r.primary|
    ensures !Clashes(r, c, n)
  {
    hide Gives, Row;
    forall d, j, x, y | HasLeg(r, d, j) && HasLeg(r, x, y) && SegmentOf(LegAt(r, d, j)) == SegmentOf(LegAt(r, x, y))
      ensures !Clash(r, c, n, d, j, x, y)
    {
      assert d == x && j == y;
    }
  }

  lemma OnRouteBacked(r: Route, c: set<Segment>)
    requires Backed(r, c)
    ensures Backed(r, OnlyOnRoute(r, c))
  {
  }

  lemma ReleasedSound(track: seq<Node>, r: Route, c: set<Segment>, n: nat, r2: Route, tampered: bool, clashed: bool)
    requires TrainSound(track, r, c, tampered, clashed) && ReleasedTo(r, OnlyOnRoute(r, c), n, r2)
    ensures
      var kept := OnlyOnRoute(r, c);
      TrainSound(track, r2, kept - GivenUp(r, kept, n), tampered, clashed || Clashes(r, kept, n))
  {
    hide Row, IsSegment, Dropped, GivenUp, Clashes;
    SameLegsKeeps(track, r, r2);
    if Simple(r) {
      SimpleNeverClashes(r, OnlyOnRoute(r, c), n);
    }
    if !tampered && !clashed {
      OnRouteBacked(r, c);
      ReleaseKeepsBacked(r, OnlyOnRoute(r, c), n, r2);
    }
  }

  // ---------- What has been passed, and what lies ahead ----------

  /** The legs passed count on nothing any more and their segments are not held; the legs
      ahead are as they were. */
  lemma PassedIsReleased(r: Route, c: set<Segment>, n: nat, r2: Route, j: nat)
    requires ReleasedTo(r, c, n, r2) && j < |r.primary|
    ensures |r2.primary| == |r.primary|
    ensures j < n ==> r2.primary[j].reserved <= 0 && SegmentOf(r.primary[j]) !in c - GivenUp(r, c, n)
    ensures j >= n ==> r2.primary[j] == r.primary[j]
  {
    hide GivenUp;
    SameSizes(r, r2);
    assert HasLeg(r, PRIMARY, j) && LegAt(r, PRIMARY, j) == r.primary[j] && LegAt(r2, PRIMARY, j) == r2.primary[j];
    if j < n {
      GivesEarly(r, c, j, n);
    }
  }

  /** The detour of a leg that was passed and counted on counts on nothing either; a detour of
      no leg that was passed is as it was. */
  lemma PassedDetour(r: Route, c: set<Segment>, n: nat, r2: Route, d: int, j: int)
    requires ReleasedTo(r, c, n, r2) && d >= 0 && HasLeg(r, d, j)
    ensures HasLeg(r2, d, j)
    ensures (exists i :: 0 <= i < n && r.primary[i].detour == d && r.primary[i].reserved > 0) ==>
      LegAt(r2, d, j).reserved <= 0
    ensures (forall i :: 0 <= i < n ==> r.primary[i].detour != d) ==> LegAt(r2, d, j) == LegAt(r, d, j)
  {
    hide GivenUp, Row;
    if i :| 0 <= i < n && r.primary[i].detour == d && r.primary[i].reserved > 0 {
      assert GivesDetour(r, c, n, i, d);
    }
  }

  /** A segment that is neither on a leg passed nor on a detour from one is kept. */
  lemma AheadIsKept(r: Route, c: set<Segment>, n: nat, s: Segment)
    requires n <= |r.primary| && s in c
    requires forall i :: 0 <= i < n ==> SegmentOf(r.primary[i]) != s
    requires forall i, j :: 0 <= i < n && HasLeg(r, r.primary[i].detour, j) && r.primary[i].detour >= 0 ==>
      SegmentOf(LegAt(r, r.primary[i].detour, j)) != s
    ensures s in c - GivenUp(r, c, n)
  {
    hide GivenUp, Gives;
    forall d, j | Dropped(r, c, n, d, j)
      ensures SegmentOf(LegAt(r, d, j)) != s
    {
      if d != PRIMARY {
        var i :| GivesDetour(r, c, n, i, d);
        assert HasLeg(r, r.primary[i].detour, j);
      }
    }
    if s in GivenUp(r, c, n) {
      GivenWasDropped(r, c, n, s);
    }
  }

  // ---------- One leg after the other ----------

  /** Of row d, all legs count on nothing any more, and the other rows are as before. */
  ghost predicate RowReleased(r: Route, r2: Route, d: int, n: int) {
    && SameLegs(r, r2)
    && forall x, j :: HasLeg(r, x, j) ==>
         LegAt(r2, x, j) ==
           if x == d && j < n && LegAt(r, x, j).reserved > 0 then LegAt(r, x, j).(reserved := 0) else LegAt(r, x, j)
  }

  /** The segments that the first n legs of row d count on. */
  ghost function CountedBefore(r: Route, d: int, n: nat): (c: set<Segment>)
    requires 0 <= d < |r.detours| && n <= |r.detours[d]|
    ensures n == |r.detours[d]| ==> c == Counted(r, d)
  {
    set j | 0 <= j < n && r.detours[d][j].reserved > 0 :: SegmentOf(r.detours[d][j])
  }

  lemma RowReleaseStarts(r: Route, d: int)
    requires 0 <= d < |r.detours|
    ensures RowReleased(r, r, d, 0) && CountedBefore(r, d, 0) == {}
  {
  }

  lemma RowReleaseNext(r: Route, r2: Route, r3: Route, d: int, i: nat)
    requires 0 <= d < |r.detours| && i < |r.detours[d]| && RowReleased(r, r2, d, i) && HasLeg(r2, d, i)
    requires r3 == if LegAt(r2, d, i).reserved > 0 then WithReserved(r2, d, i, 0) else r2
    ensures RowReleased(r, r3, d, i + 1)
    ensures LegAt(r2, d, i) == r.detours[d][i]
    ensures var c := CountedBefore(r, d, i);
      CountedBefore(r, d, i + 1) == if LegAt(r2, d, i).reserved > 0 then c + {SegmentOf(LegAt(r2, d, i))} else c
  {
    assert HasLeg(r, d, i) && LegAt(r, d, i) == r.detours[d][i];
  }

  lemma ReleaseStarts(r: Route, c: set<Segment>)
    ensures ReleasedTo(r, c, 0, r) && c - GivenUp(r, c, 0) == c
  {
  }

  /** The leg that comes next is as it was before. */
  lemma NextLeg(r: Route, c: set<Segment>, i: nat, r2: Route)
    requires ReleasedTo(r, c, i, r2) && i < |r.primary|
    ensures |r2.primary| == |r.primary| && r2.primary[i] == r.primary[i] && HasLeg(r2, PRIMARY, i)
    ensures |r2.detours| == |r.detours|
  {
    SameSizes(r, r2);
    assert HasLeg(r, PRIMARY, i) && LegAt(r2, PRIMARY, i) == LegAt(r, PRIMARY, i);
  }

  lemma LegKept(r: Route, c: set<Segment>, i: nat, r2: Route)
    requires ReleasedTo(r, c, i, r2) && i < |r.primary| && !Gives(r, c, i)
    ensures ReleasedTo(r, c, i + 1, r2) && GivenUp(r, c, i + 1) == GivenUp(r, c, i)
  {
    hide Gives, Row;
    forall d, j | HasLeg(r, d, j)
      ensures Dropped(r, c, i + 1, d, j) <==> Dropped(r, c, i, d, j)
    {
      DroppedNext(r, c, i, d, j);
    }
  }

  lemma DroppedNext(r: Route, c: set<Segment>, i: nat, d: int, j: int)
    requires i < |r.primary| && HasLeg(r, d, j)
    ensures Dropped(r, c, i + 1, d, j) <==>
      || Dropped(r, c, i, d, j)
      || (Gives(r, c, i) && if d == PRIMARY then j == i else r.primary[i].detour == d && LegAt(r, d, j).reserved > 0)
  {
    hide Gives;
    if d != PRIMARY {
      if Dropped(r, c, i, d, j) {
        DroppedLater(r, c, i, i + 1, d, j);
      }
      assert Gives(r, c, i) && r.primary[i].detour == d ==> GivesDetour(r, c, i + 1, i, d);
      if Dropped(r, c, i + 1, d, j) {
        var k :| GivesDetour(r, c, i + 1, k, d);
        assert k != i ==> GivesDetour(r, c, i, k, d);
      }
    }
  }

  /** Leg i gives up its segment; it has no detour. */
  lemma LegGiven(r: Route, c: set<Segment>, i: nat, r2: Route, r3: Route)
    requires ReleasedTo(r, c, i, r2) && i < |r.primary| && Gives(r, c, i) && r.primary[i].detour < 0
    requires HasLeg(r2, PRIMARY, i) && r3 == WithReserved(r2, PRIMARY, i, 0)
    ensures ReleasedTo(r, c, i + 1, r3)
    ensures GivenUp(r, c, i + 1) == GivenUp(r, c, i) + {SegmentOf(r.primary[i])}
  {
    hide Gives, Row;
    forall d, j | HasLeg(r, d, j)
      ensures LegAt(r3, d, j) == if Dropped(r, c, i + 1, d, j) then LegAt(r, d, j).(reserved := 0) else LegAt(r, d, j)
    {
      DroppedNext(r, c, i, d, j);
      assert HasLeg(r2, d, j);
    }
  }

  /** Leg i gives up its segment and its detour. */
  lemma DetourGivenUp(r: Route, c: set<Segment>, i: nat, r2: Route, r3: Route, r4: Route)
    requires ReleasedTo(r, c, i, r2) && i < |r.primary| && Gives(r, c, i) && 0 <= r.primary[i].detour < |r.detours|
    requires HasLeg(r2, PRIMARY, i) && r3 == WithReserved(r2, PRIMARY, i, 0)
    requires var d := r.primary[i].detour; d < |r3.detours| && RowReleased(r3, r4, d, |r3.detours[d]|)
    ensures ReleasedTo(r, c, i + 1, r4)
    ensures GivenUp(r, c, i + 1) == GivenUp(r, c, i) + {SegmentOf(r.primary[i])} + Counted(r3, r.primary[i].detour)
  {
    hide Gives, Dropped, Row;
    SameSizes(r2, r3);
    forall d, j | HasLeg(r, d, j)
      ensures HasLeg(r4, d, j)
      ensures LegAt(r4, d, j) == if Dropped(r, c, i + 1, d, j) then LegAt(r, d, j).(reserved := 0) else LegAt(r, d, j)
    {
      DroppedNext(r, c, i, d, j);
      assert HasLeg(r2, d, j) && HasLeg(r3, d, j);
      DetourInRow(r3, d, j);
    }
    SameLegsTrans(r, r2, r3, r4);
    CountedStill(r, c, i, r2, r3);
  }

  lemma StillAsLong(r: Route, r2: Route, d: int)
    requires 0 <= d < |r.detours| && RowReleased(r, r2, d, |r.detours[d]|)
    ensures |r2.primary| == |r.primary|
  {
    SameSizes(r, r2);
  }

  lemma DetourInRow(r: Route, d: int, j: int)
    requires HasLeg(r, d, j)
    ensures d != PRIMARY ==> 0 <= d < |r.detours| && j < |r.detours[d]|
  {
  }

  lemma SameLegsTrans(r: Route, r2: Route, r3: Route, r4: Route)
    requires SameLegs(r, r2) && SameLegs(r2, r3) && SameLegs(r3, r4)
    ensures SameLegs(r, r4)
  {
    hide Row;
  }

  /** What the detour counts on now is what it counted on, but for what was given up already. */
  lemma CountedStill(r: Route, c: set<Segment>, i: nat, r2: Route, r3: Route)
    requires ReleasedTo(r, c, i, r2) && i < |r.primary| && 0 <= r.primary[i].detour < |r.detours|
    requires HasLeg(r2, PRIMARY, i) && r3 == WithReserved(r2, PRIMARY, i, 0)
    ensures var d := r.primary[i].detour;
      && Counted(r3, d) <= Counted(r, d) && Counted(r, d) <= Counted(r3, d) + GivenUp(r, c, i)
  {
    hide Gives, GivenUp, Dropped;
    var d := r.primary[i].detour;
    SameSizes(r, r2);
    forall j | 0 <= j < |r.detours[d]|
      ensures r3.detours[d][j] == r2.detours[d][j] && HasLeg(r, d, j) && LegAt(r, d, j) == r.detours[d][j]
      ensures r2.detours[d][j] == if Dropped(r, c, i, d, j) then r.detours[d][j].(reserved := 0) else r.detours[d][j]
      ensures Dropped(r, c, i, d, j) ==> SegmentOf(r.detours[d][j]) in GivenUp(r, c, i)
    {
      assert HasLeg(r, d, j) && LegAt(r2, d, j) == r2.detours[d][j];
      if Dropped(r, c, i, d, j) {
        DroppedIsGiven(r, c, i, d, j);
      }
    }
  }
}
