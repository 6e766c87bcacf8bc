/** The pen of a CadQuery sketch as the lamp's profile builders drive it:
    `moveTo` sets the start, each `line(dx, dy)` moves the cursor by a
    relative offset, `threePointArc(mid, end)` moves it to an absolute end
    point through an absolute mid point, and `close()` joins the cursor back
    to the start. */
module Sketch {
  import opened Plane

  datatype Segment =
    | Line(offset: Point)
    | ThreePointArc(mid: Point, endPoint: Point)

  /** A profile is its start point followed by the segments drawn from it. */
  datatype Profile = Profile(start: Point, segments: seq<Segment>)

  /** Where the cursor is after drawing one segment from `cursor`. */
  function Advance(cursor: Point, s: Segment): Point {
    match s
    case Line(o) => Add(cursor, o)
    case ThreePointArc(_, e) => e
  }

  /** The cursor positions visited, starting with `cursor` itself. */
  function Path(cursor: Point, segments: seq<Segment>): (vs: seq<Point>)
    ensures |vs| == |segments| + 1 && vs[0] == cursor
    decreases |segments|
  {
    if segments == [] then [cursor]
    else [cursor] + Path(Advance(cursor, segments[0]), segments[1..])
  }

  /** The vertices of a profile: the start and each cursor position after it. */
  function Vertices(p: Profile): seq<Point> {
    Path(p.start, p.segments)
  }

  /** The cursor position when `close()` is called. */
  function End(p: Profile): Point {
    Last(Vertices(p))
  }

  /** The segment `close()` adds, from the cursor back to the start. */
  function ClosingSegment(p: Profile): Point {
    Sub(p.start, End(p))
  }

  predicate AllLines(segments: seq<Segment>) {
    forall i :: 0 <= i < |segments| ==> segments[i].Line?
  }

  /** Sum of the offsets of a chain of lines. */
  function SumOffsets(segments: seq<Segment>): Point
    requires AllLines(segments)
  {
    if segments == [] then Origin
    else Add(segments[0].offset, SumOffsets(segments[1..]))
  }

  /** Each vertex is the previous one advanced by the segment between them. */
  lemma {:induction false} PathStep(cursor: Point, segments: seq<Segment>, k: nat)
    requires k < |segments|
    ensures Path(cursor, segments)[k + 1] == Advance(Path(cursor, segments)[k], segments[k])
    decreases |segments|
  {
    var rest := Path(Advance(cursor, segments[0]), segments[1..]);
    assert Path(cursor, segments) == [cursor] + rest;
    if k > 0 {
      PathStep(Advance(cursor, segments[0]), segments[1..], k - 1);
    }
  }

  /** Two profiles whose first n segments agree share their first n + 1 vertices. */
  lemma {:induction false} PathPrefix(cursor: Point, a: seq<Segment>, b: seq<Segment>, n: nat)
    requires n <= |a| && n <= |b| && a[..n] == b[..n]
    ensures Path(cursor, a)[..n + 1] == Path(cursor, b)[..n + 1]
    decreases n
  {
    if n > 0 {
      assert a[0] == a[..n][0] == b[..n][0] == b[0];
      assert a[1..][..n - 1] == a[..n][1..] == b[..n][1..] == b[1..][..n - 1];
      PathPrefix(Advance(cursor, a[0]), a[1..], b[1..], n - 1);
    }
  }

  /** A chain of lines visits the running prefix sums of its offsets. */
  lemma {:induction false} LinePathIsPrefixSum(cursor: Point, segments: seq<Segment>, k: nat)
    requires AllLines(segments) && k <= |segments|
    ensures AllLines(segments[..k])
    ensures Path(cursor, segments)[k] == Add(cursor, SumOffsets(segments[..k]))
    decreases k
  {
    if k > 0 {
      var tail := segments[1..];
      assert segments[..k][1..] == tail[..k - 1];
      LinePathIsPrefixSum(Add(cursor, segments[0].offset), tail, k - 1);
      assert Path(cursor, segments) == [cursor] + Path(Add(cursor, segments[0].offset), tail);
    }
  }

  /** A chain of lines returns the cursor to its start exactly when its
      offsets sum to zero, and the closing segment is minus that sum. */
  lemma LineProfileCloses(p: Profile)
    requires AllLines(p.segments)
    ensures ClosingSegment(p) == Sub(Origin, SumOffsets(p.segments))
    ensures End(p) == p.start <==> SumOffsets(p.segments) == Origin
  {
    LinePathIsPrefixSum(p.start, p.segments, |p.segments|);
    assert p.segments[..|p.segments|] == p.segments;
  }

  /** The profile builder run step by step: the cursor starts at the start
      point and each segment moves it, recording every position reached. */
  method Trace(p: Profile) returns (vertices: seq<Point>)
    ensures vertices == Vertices(p)
    ensures Last(vertices) == End(p)
  {
    var cursor := p.start;
    vertices := [cursor];
    var i := 0;
    while i < |p.segments|
      invariant 0 <= i <= |p.segments|
      invariant |vertices| == i + 1
      invariant forall j :: 0 <= j <= i ==> vertices[j] == Vertices(p)[j]
      invariant cursor == vertices[i]
    {
      PathStep(p.start, p.segments, i);
      match p.segments[i] {
        case Line(o) =>
          cursor := Add(cursor, o);
        case ThreePointArc(_, e) =>
          cursor := e;
      }
      vertices := vertices + [cursor];
      i := i + 1;
    }
  }
}
