/** The hand overlay of the Index page (drawHandLandmarks): a fixed table of
    landmark pairs drawn as lines, then a dot on every landmark. */
module Skeleton {
  import opened Hand

  /** The pairs of landmarks joined by a line, in drawing order: the four
      links of each finger from the wrist outward, then the palm. */
  const Connections: seq<(nat, nat)> := [
    (0, 1), (1, 2), (2, 3), (3, 4),
    (0, 5), (5, 6), (6, 7), (7, 8),
    (0, 9), (9, 10), (10, 11), (11, 12),
    (0, 13), (13, 14), (14, 15), (15, 16),
    (0, 17), (17, 18), (18, 19), (19, 20),
    (0, 5), (5, 9), (9, 13), (13, 17)
  ]

  const LineWidth: real := 2.0
  const LineColor: string := "#4ade80"
  const PointColor: string := "#60a5fa"
  const DotRadius: real := 3.0

  /** Every endpoint of the table is a landmark of a 21-landmark hand. */
  lemma ConnectionsInRange()
    ensures |Connections| == 24
    ensures forall i :: 0 <= i < |Connections| ==>
      Connections[i].0 < LandmarkCount && Connections[i].1 < LandmarkCount
  {
  }

  /** Every landmark of a hand is an endpoint of some line. */
  lemma {:induction false} EveryLandmarkJoined(k: nat)
    requires k < LandmarkCount
    ensures exists i :: 0 <= i < |Connections| && (Connections[i].0 == k || Connections[i].1 == k)
  {
    // entry k - 1 ends at landmark k, and entry 0 starts at the wrist
    var i := if k == 0 then 0 else k - 1;
    assert Connections[i].0 == k || Connections[i].1 == k;
  }

  /** The wrist to index-knuckle link is listed twice (by the index finger
      and again by the palm); every other line is listed once. */
  lemma PalmLinkListedTwice()
    ensures Connections[4] == Connections[20] == (0, 5)
    ensures forall i, j :: 0 <= i < j < |Connections| && Connections[i] == Connections[j] ==> i == 4 && j == 20
  {
  }

  /** The table can be drawn from a hand exactly when the hand is complete:
      landmark 20 is the largest endpoint. */
  lemma {:induction false} DrawableIffComplete(lm: seq<Landmark>)
    ensures (forall i :: 0 <= i < |Connections| ==> Connections[i].0 < |lm| && Connections[i].1 < |lm|)
      <==> Complete(lm)
  {
    ConnectionsInRange();
    assert Connections[19] == (19, 20);
  }

  datatype Point = Point(x: real, y: real)

  datatype Segment = Segment(from: Point, to: Point)

  datatype Dot = Dot(center: Point, radius: real)

  /** What one call draws: line style, point colour, the lines and the dots. */
  datatype Sketch = Sketch(lineWidth: real, lineColor: string, pointColor: string,
                           lines: seq<Segment>, dots: seq<Dot>)

  /** A normalized landmark scaled to canvas pixels. */
  function Project(p: Landmark, width: real, height: real): Point
  {
    Point(p.x * width, p.y * height)
  }

  /** The sketch of a hand: one line per table entry, in table order, and one
      dot per landmark, in landmark order. */
  ghost predicate IsSketchOf(s: Sketch, lm: seq<Landmark>, width: real, height: real)
    requires Complete(lm)
  {
    ConnectionsInRange();
    && s.lineWidth == LineWidth && s.lineColor == LineColor && s.pointColor == PointColor
    && |s.lines| == |Connections|
    && (forall i :: 0 <= i < |Connections| ==>
          s.lines[i] == Segment(Project(lm[Connections[i].0], width, height),
                                Project(lm[Connections[i].1], width, height)))
    && |s.dots| == |lm|
    && (forall j :: 0 <= j < |lm| ==> s.dots[j] == Dot(Project(lm[j], width, height), DotRadius))
  }

  /** drawHandLandmarks: reading an endpoint past the end of a short hand
      throws. */
  method DrawHandLandmarks(lm: seq<Landmark>, width: real, height: real) returns (r: Outcome<Sketch>)
    ensures r.TypeError? <==> !Complete(lm)
    ensures r.Ok? ==> Complete(lm) && IsSketchOf(r.value, lm, width, height)
  {
    DrawableIffComplete(lm);
    var lines: seq<Segment> := [];
    for i := 0 to |Connections|
      invariant |lines| == i
      invariant forall k :: 0 <= k < i ==> Connections[k].0 < |lm| && Connections[k].1 < |lm|
      invariant forall k :: 0 <= k < i ==>
        lines[k] == Segment(Project(lm[Connections[k].0], width, height),
                            Project(lm[Connections[k].1], width, height))
    {
      var (startIdx, endIdx) := Connections[i];
      if startIdx >= |lm| || endIdx >= |lm| {
        return TypeError;
      }
      lines := lines + [Segment(Project(lm[startIdx], width, height), Project(lm[endIdx], width, height))];
    }
    var dots: seq<Dot> := [];
    for j := 0 to |lm|
      invariant |dots| == j
      invariant forall k :: 0 <= k < j ==> dots[k] == Dot(Project(lm[k], width, height), DotRadius)
    {
      dots := dots + [Dot(Project(lm[j], width, height), DotRadius)];
    }
    r := Ok(Sketch(LineWidth, LineColor, PointColor, lines, dots));
    ConnectionsInRange();
  }
}
