/** The train track: a graph of nodes, each of which stands for one direction of travel
    past a place, and has a reverse node for the other direction. */
module Track {

  const TRACK_MAX := 144
  const INT_MAX := 0x7fff_ffff

  datatype NodeKind = NoNode | Sensor | Branch | Merge | Enter | Exit

  datatype Edge = Edge(dest: int, dist: int)

  datatype Node = Node(kind: NodeKind, reverse: int, ahead: Edge, curved: Edge)

  predicate IsNode(track: seq<Node>, u: int) {
    0 <= u < |track| && !track[u].kind.NoNode?
  }

  /** A branch has two edges, an exit none, and any other node one. */
  predicate HasEdge(track: seq<Node>, u: int, e: int) {
    IsNode(track, u) && !track[u].kind.Exit? && (e == 0 || (e == 1 && track[u].kind.Branch?))
  }

  function EdgeOf(track: seq<Node>, u: int, e: int): (r: Edge)
    requires 0 <= u < |track|
  {
    if e == 0 then track[u].ahead else track[u].curved
  }

  function Dest(track: seq<Node>, u: int, e: int): (v: int)
    requires 0 <= u < |track|
  {
    EdgeOf(track, u, e).dest
  }

  function Dist(track: seq<Node>, u: int, e: int): (d: int)
    requires 0 <= u < |track|
  {
    EdgeOf(track, u, e).dist
  }

  ghost predicate ReverseOk(track: seq<Node>, u: int)
    requires 0 <= u < |track|
  {
    IsNode(track, u) ==> var r := track[u].reverse; IsNode(track, r) && track[r].reverse == u
  }

  /** Edge f out of w runs back along edge e out of u. */
  ghost predicate IsMirror(track: seq<Node>, u: int, e: int, w: int, f: int) {
    && HasEdge(track, u, e) && HasEdge(track, w, f)
    && IsNode(track, Dest(track, u, e))
    && w == track[Dest(track, u, e)].reverse
    && Dest(track, w, f) == track[u].reverse
    && Dist(track, w, f) == Dist(track, u, e)
  }

  ghost predicate EdgeOk(track: seq<Node>, u: int, e: int) {
    HasEdge(track, u, e) ==>
      && IsNode(track, Dest(track, u, e))
      && 0 <= Dist(track, u, e)
      && (IsMirror(track, u, e, track[Dest(track, u, e)].reverse, 0)
          || IsMirror(track, u, e, track[Dest(track, u, e)].reverse, 1))
  }

  /** What the track generator ensures: reversal is an involution, every edge has its
      mirror, and the two exits of a branch lead to different nodes. */
  ghost predicate WellFormed(track: seq<Node>) {
    && |track| == TRACK_MAX
    && (forall u :: 0 <= u < |track| ==> ReverseOk(track, u))
    && (forall u, e :: 0 <= u < |track| && 0 <= e <= 1 ==> EdgeOk(track, u, e))
    && (forall u :: 0 <= u < |track| && track[u].kind.Branch? ==> track[u].ahead.dest != track[u].curved.dest)
  }

  /** The mirror of the mirror is the edge itself. */
  lemma MirrorInvolution(track: seq<Node>, u: int, e: int, w: int, f: int)
    requires WellFormed(track) && IsMirror(track, u, e, w, f)
    ensures IsMirror(track, w, f, u, e)
  {
    assert ReverseOk(track, u) && ReverseOk(track, Dest(track, u, e));
  }
}
