/** The sampler: the point list and the length of one entity.
    These functions are the specification that the processor's loops are proved
    against. */
module Sampler {
  import opened Geometry
  import opened Entities

  /** A circle is sampled at this many angles; an arc at this many steps plus one. */
  const CircleSegments: nat := 16
  const ArcSegments: nat := 16

  /** The angle (radians) of the i-th circle sample: 2*pi*i/16. */
  function CircleAngle(i: nat): real
  {
    2.0 * Pi * (i as real) / (CircleSegments as real)
  }

  /** The angle of the i-th arc sample, interpolating the raw signed difference between
      the end angles (no wrap-around correction). */
  function ArcAngle(a0: real, a1: real, i: nat): real
  {
    a0 + (a1 - a0) * (i as real) / (ArcSegments as real)
  }

  function CircleSample(c: Point, r: real, i: nat, m: Numerics): Point
  {
    PolarPoint(c, r, CircleAngle(i), m)
  }

  /** Arc angles arrive in degrees and are converted before interpolation. */
  function ArcSample(c: Point, r: real, d0: real, d1: real, i: nat, m: Numerics): Point
  {
    PolarPoint(c, r, ArcAngle(Radians(d0), Radians(d1), i), m)
  }

  /** The sampled points of an entity (`get_entity_points`). An entity whose
      attributes cannot be read, or of a type with no branch, gives no points. */
  function Samples(e: Entity, m: Numerics): seq<Point>
  {
    match e.shape
    case Line(s, t) => [s, t]
    case LwPolyline(vs) => vs
    case Polyline(vs) => vs
    case Circle(c, r) =>
      seq(CircleSegments, i requires 0 <= i < CircleSegments => CircleSample(c, r, i, m))
    case Arc(c, r, d0, d1) =>
      seq(ArcSegments + 1, i requires 0 <= i <= ArcSegments => ArcSample(c, r, d0, d1, i, m))
    case Malformed(_) => []
    case Unsupported(_) => []
  }

  /** The length of an open path: the sum of the distances between consecutive
      points, with no closing edge. */
  function PathLength(pts: seq<Point>, m: Numerics): real
  {
    if |pts| <= 1 then 0.0
    else PathLength(pts[..|pts| - 1], m) + Dist(pts[|pts| - 2], pts[|pts| - 1], m)
  }

  /** The cut length of an entity given its sampled points (`calculate_entity_length`).
      Lines measure their first two points, polylines their path; circles and arcs use
      their closed forms. A circle or an arc whose attributes cannot be read has length 0. */
  function Length(e: Entity, pts: seq<Point>, m: Numerics): real
  {
    var t := DxfType(e);
    if t == "LINE" then
      if |pts| >= 2 then Dist(pts[0], pts[1], m) else 0.0
    else if t == "LWPOLYLINE" || t == "POLYLINE" then
      PathLength(pts, m)
    else if t == "CIRCLE" then
      if e.shape.Circle? then 2.0 * Pi * e.shape.radius else 0.0
    else if t == "ARC" then
      if e.shape.Arc? then Abs(Radians(e.shape.endAngle) - Radians(e.shape.startAngle)) * e.shape.radius
      else 0.0
    else 0.0
  }

  /** A line is sampled as exactly its two endpoints, in order, and its length is
      the distance between them. */
  lemma LineSampling(e: Entity, m: Numerics)
    requires e.shape.Line?
    ensures Samples(e, m) == [e.shape.start, e.shape.end]
    ensures Length(e, Samples(e, m), m) == Dist(e.shape.start, e.shape.end, m)
  {
  }

  /** A line-typed entity with fewer than two points has length 0. */
  lemma ShortLineHasNoLength(e: Entity, pts: seq<Point>, m: Numerics)
    requires DxfType(e) == "LINE" && |pts| < 2
    ensures Length(e, pts, m) == 0.0
  {
  }

  /** A circle is sampled at 16 points, the first at angle 0; with a sound math
      library and r >= 0 all lie at distance r from the centre. Its length is 2*pi*r
      whatever the points. */
  lemma CircleSampling(e: Entity, pts: seq<Point>, m: Numerics)
    requires e.shape.Circle?
    ensures |Samples(e, m)| == 16
    ensures Samples(e, m)[0] == PolarPoint(e.shape.center, e.shape.radius, 0.0, m)
    ensures m.Sound() && 0.0 <= e.shape.radius ==>
      forall i :: 0 <= i < 16 ==> Dist(e.shape.center, Samples(e, m)[i], m) == e.shape.radius
    ensures Length(e, pts, m) == 2.0 * Pi * e.shape.radius
  {
    var c, r := e.shape.center, e.shape.radius;
    if m.Sound() && 0.0 <= r {
      forall i | 0 <= i < 16
        ensures Dist(c, Samples(e, m)[i], m) == r
      {
        DistPolarPoint(c, r, CircleAngle(i), m);
      }
    }
  }

  /** An arc is sampled at 17 points, the first at the start angle and the last at
      the end angle; with a sound math library and r >= 0 all lie at distance r from
      the centre. Its length is |end - start| * r (angles in radians) whatever the
      points. */
  lemma ArcSampling(e: Entity, pts: seq<Point>, m: Numerics)
    requires e.shape.Arc?
    ensures |Samples(e, m)| == 17
    ensures Samples(e, m)[0] == PolarPoint(e.shape.center, e.shape.radius, Radians(e.shape.startAngle), m)
    ensures Samples(e, m)[16] == PolarPoint(e.shape.center, e.shape.radius, Radians(e.shape.endAngle), m)
    ensures m.Sound() && 0.0 <= e.shape.radius ==>
      forall i :: 0 <= i < 17 ==> Dist(e.shape.center, Samples(e, m)[i], m) == e.shape.radius
    ensures Length(e, pts, m) ==
      Abs(Radians(e.shape.endAngle) - Radians(e.shape.startAngle)) * e.shape.radius
  {
    var c, r, d0, d1 := e.shape.center, e.shape.radius, e.shape.startAngle, e.shape.endAngle;
    ArcAngleEnds(Radians(d0), Radians(d1));
    if m.Sound() && 0.0 <= r {
      ArcSamplesOnCircle(c, r, d0, d1, m);
    }
  }

  lemma ArcSamplesOnCircle(c: Point, r: real, d0: real, d1: real, m: Numerics)
    requires m.Sound() && 0.0 <= r
    ensures forall i: nat :: i <= ArcSegments ==> Dist(c, ArcSample(c, r, d0, d1, i, m), m) == r
  {
    forall i: nat | i <= ArcSegments
      ensures Dist(c, ArcSample(c, r, d0, d1, i, m), m) == r
    {
      DistPolarPoint(c, r, ArcAngle(Radians(d0), Radians(d1), i), m);
    }
  }

  /** The first sample angle is the start angle and the last the end angle. */
  lemma ArcAngleEnds(a0: real, a1: real)
    ensures ArcAngle(a0, a1, 0) == a0 && ArcAngle(a0, a1, ArcSegments) == a1
  {
    assert (a1 - a0) * (ArcSegments as real) / (ArcSegments as real) == a1 - a0;
  }

  /** An entity that cannot be read, or that no branch handles, gives no points. */
  lemma UnreadableHasNoSamples(e: Entity, m: Numerics)
    requires e.shape.Malformed? || e.shape.Unsupported?
    ensures Samples(e, m) == []
  {
  }

  /** A path of zero or one point has length 0. */
  lemma ShortPathHasNoLength(pts: seq<Point>, m: Numerics)
    requires |pts| <= 1
    ensures PathLength(pts, m) == 0.0
  {
  }

  /** A two-vertex polyline is as long as the line between its vertices. */
  lemma TwoPointPath(p: Point, q: Point, m: Numerics)
    ensures PathLength([p, q], m) == Dist(p, q, m)
  {
    assert [p, q][..1] == [p];
  }

  lemma {:induction false} PathLengthNonNegative(pts: seq<Point>, m: Numerics)
    requires m.Sound()
    ensures 0.0 <= PathLength(pts, m)
  {
    if |pts| > 1 {
      PathLengthNonNegative(pts[..|pts| - 1], m);
      DistNonNegative(pts[|pts| - 2], pts[|pts| - 1], m);
    }
  }

  /** Joining two paths adds the edge between the last point of the first and the
      first point of the second, and nothing else. */
  lemma {:induction false} PathLengthAppend(p: seq<Point>, q: seq<Point>, m: Numerics)
    requires |p| > 0 && |q| > 0
    ensures PathLength(p + q, m) == PathLength(p, m) + Dist(p[|p| - 1], q[0], m) + PathLength(q, m)
    decreases |q|
  {
    var pq := p + q;
    if |q| == 1 {
      assert pq[..|pq| - 1] == p;
    } else {
      var q' := q[..|q| - 1];
      PathLengthAppend(p, q', m);
      assert pq[..|pq| - 1] == p + q';
      assert q'[..|q'| - 1] == q[..|q| - 2];
      assert q[..|q| - 1][..|q| - 2] == q[..|q| - 2];
    }
  }

  /** With a sound math library and nonnegative radii, every length is nonnegative. */
  lemma LengthNonNegative(e: Entity, pts: seq<Point>, m: Numerics)
    requires m.Sound()
    requires e.shape.Circle? || e.shape.Arc? ==> 0.0 <= e.shape.radius
    ensures 0.0 <= Length(e, pts, m)
  {
    var t := DxfType(e);
    if t == "LINE" {
      if |pts| >= 2 {
        DistNonNegative(pts[0], pts[1], m);
      }
    } else if t == "LWPOLYLINE" || t == "POLYLINE" {
      PathLengthNonNegative(pts, m);
    }
  }
}
