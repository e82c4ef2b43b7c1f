/** Points, distances and axis-aligned boxes, the value types every stage of the
    drawing analysis works on. */
module Geometry {

  datatype Option<+T> = None | Some(value: T)

  /** A 2-D point in drawing units (millimetres). */
  datatype Point = Point(x: real, y: real)

  /** The floating-point library the processor calls. Its results are not modelled;
      the proofs use only the facts collected in `Sound`. */
  datatype Numerics = Numerics(sqrt: real -> real, cos: real -> real, sin: real -> real)
  {
    /** The facts of real analysis the proofs rely on: `sqrt` is the nonnegative
        square root on nonnegative arguments, and `cos`/`sin` lie on the unit circle. */
    ghost predicate Sound()
    {
      && (forall v :: 0.0 <= v ==> 0.0 <= sqrt(v) && sqrt(v) * sqrt(v) == v)
      && (forall a :: cos(a) * cos(a) + sin(a) * sin(a) == 1.0)
    }
  }

  /** The double closest to pi, as the source's math library spells it. */
  const Pi: real := 3.141592653589793

  function Abs(v: real): (r: real)
    ensures 0.0 <= r && (r == v || r == -v)
  {
    if v < 0.0 then -v else v
  }

  function Max(a: real, b: real): (r: real)
    ensures a <= r && b <= r && (r == a || r == b)
  {
    if a >= b then a else b
  }

  /** Degrees to radians, as the math library converts them. */
  function Radians(degrees: real): real
  {
    degrees * (Pi / 180.0)
  }

  function SquaredDist(p: Point, q: Point): (d: real)
    ensures 0.0 <= d
  {
    (p.x - q.x) * (p.x - q.x) + (p.y - q.y) * (p.y - q.y)
  }

  /** Euclidean distance between two points. */
  function Dist(p: Point, q: Point, m: Numerics): real
  {
    m.sqrt(SquaredDist(p, q))
  }

  lemma DistNonNegative(p: Point, q: Point, m: Numerics)
    requires m.Sound()
    ensures 0.0 <= Dist(p, q, m)
  {
    assert 0.0 <= SquaredDist(p, q);
  }

  lemma DistSelf(p: Point, m: Numerics)
    requires m.Sound()
    ensures Dist(p, p, m) == 0.0
  {
    var s := m.sqrt(SquaredDist(p, p));
    assert 0.0 <= s && s * s == 0.0;
    ZeroProduct(s, s);
  }

  lemma ZeroProduct(a: real, b: real)
    requires a * b == 0.0
    ensures a == 0.0 || b == 0.0
  {
  }

  lemma PositiveFactor(a: real, n: real)
    requires 0.0 < n && 0.0 <= n * a
    ensures 0.0 <= a
  {
  }

  /** Two nonnegative reals with the same square are equal. */
  lemma SquareInjective(s: real, r: real)
    requires 0.0 <= s && 0.0 <= r && s * s == r * r
    ensures s == r
  {
    assert (s - r) * (s + r) == s * s - r * r;
    ZeroProduct(s - r, s + r);
  }

  /** With a sound square root, a distance whose square is k*k is k, and one whose
      square is at most k*k is at most k. */
  lemma DistFromSquare(p: Point, q: Point, k: real, m: Numerics)
    requires m.Sound() && 0.0 <= k
    ensures SquaredDist(p, q) == k * k ==> Dist(p, q, m) == k
    ensures SquaredDist(p, q) <= k * k ==> Dist(p, q, m) <= k
  {
    var s := Dist(p, q, m);
    assert 0.0 <= s && s * s == SquaredDist(p, q);
    if SquaredDist(p, q) == k * k {
      SquareInjective(s, k);
    }
    if SquaredDist(p, q) <= k * k && 0.0 < s + k {
      assert (k - s) * (s + k) == k * k - s * s;
      PositiveFactor(k - s, s + k);
    }
  }

  lemma DistSymmetric(p: Point, q: Point, m: Numerics)
    ensures Dist(p, q, m) == Dist(q, p, m)
  {
    assert SquaredDist(p, q) == SquaredDist(q, p);
  }

  /** The point at angle `a` (radians) on the circle of radius `r` around `c`. */
  function PolarPoint(c: Point, r: real, a: real, m: Numerics): Point
  {
    Point(c.x + r * m.cos(a), c.y + r * m.sin(a))
  }

  /** With a sound math library, a polar point of nonnegative radius `r` lies at
      distance `r` from its centre. */
  lemma DistPolarPoint(c: Point, r: real, a: real, m: Numerics)
    requires m.Sound() && 0.0 <= r
    ensures Dist(c, PolarPoint(c, r, a, m), m) == r
  {
    var p := PolarPoint(c, r, a, m);
    calc {
      SquaredDist(c, p);
      (r * m.cos(a)) * (r * m.cos(a)) + (r * m.sin(a)) * (r * m.sin(a));
      r * r * (m.cos(a) * m.cos(a) + m.sin(a) * m.sin(a));
      r * r;
    }
    var s := m.sqrt(SquaredDist(c, p));
    assert 0.0 <= s && s * s == r * r;
    SquareInjective(s, r);
  }

  /** An axis-aligned bounding box. */
  datatype Box = Box(minX: real, minY: real, maxX: real, maxY: real)
  {
    function Width(): (w: real)
      ensures minX <= maxX ==> 0.0 <= w
    {
      maxX - minX
    }

    function Height(): (h: real)
      ensures minY <= maxY ==> 0.0 <= h
    {
      maxY - minY
    }

    function Area(): (a: real)
      ensures minX <= maxX && minY <= maxY ==> 0.0 <= a
      ensures (minX == maxX || minY == maxY) ==> a == 0.0
    {
      Width() * Height()
    }

    predicate Contains(p: Point)
    {
      minX <= p.x <= maxX && minY <= p.y <= maxY
    }
  }

  /** The degenerate box that stands for an empty point set. */
  const EmptyBox: Box := Box(0.0, 0.0, 0.0, 0.0)

  function Xs(pts: seq<Point>): (r: seq<real>)
    ensures |r| == |pts| && forall i :: 0 <= i < |pts| ==> r[i] == pts[i].x
  {
    seq(|pts|, i requires 0 <= i < |pts| => pts[i].x)
  }

  function Ys(pts: seq<Point>): (r: seq<real>)
    ensures |r| == |pts| && forall i :: 0 <= i < |pts| ==> r[i] == pts[i].y
  {
    seq(|pts|, i requires 0 <= i < |pts| => pts[i].y)
  }

  /** The smallest value of a nonempty sequence (the builtin `min`). */
  function MinOf(s: seq<real>): (r: real)
    requires |s| > 0
    ensures r in s
    ensures forall i :: 0 <= i < |s| ==> r <= s[i]
  {
    if |s| == 1 then s[0]
    else
      var rest := MinOf(s[1..]);
      if s[0] <= rest then s[0] else rest
  }

  /** The largest value of a nonempty sequence (the builtin `max`). */
  function MaxOf(s: seq<real>): (r: real)
    requires |s| > 0
    ensures r in s
    ensures forall i :: 0 <= i < |s| ==> s[i] <= r
  {
    if |s| == 1 then s[0]
    else
      var rest := MaxOf(s[1..]);
      if s[0] >= rest then s[0] else rest
  }

  /** The sum of a sequence (the builtin `sum`). */
  function Sum(s: seq<real>): real
  {
    if |s| == 0 then 0.0 else s[0] + Sum(s[1..])
  }

  /** A sum of values that all lie in [lo, hi] lies in [n*lo, n*hi]. */
  lemma {:induction false} SumBounds(s: seq<real>, lo: real, hi: real)
    requires forall i :: 0 <= i < |s| ==> lo <= s[i] <= hi
    ensures (|s| as real) * lo <= Sum(s) <= (|s| as real) * hi
  {
    if |s| > 0 {
      SumBounds(s[1..], lo, hi);
      assert lo <= s[0] <= hi;
      assert ((|s| - 1) as real) * lo + lo == (|s| as real) * lo;
      assert ((|s| - 1) as real) * hi + hi == (|s| as real) * hi;
    }
  }

  /** The arithmetic mean of a nonempty sequence. */
  function Mean(s: seq<real>): real
    requires |s| > 0
  {
    Sum(s) / (|s| as real)
  }

  /** The mean of values that all lie in [lo, hi] lies in [lo, hi]. */
  lemma MeanBounds(s: seq<real>, lo: real, hi: real)
    requires |s| > 0
    requires forall i :: 0 <= i < |s| ==> lo <= s[i] <= hi
    ensures lo <= Mean(s) <= hi
  {
    SumBounds(s, lo, hi);
    DivideBounds(Sum(s), |s| as real, lo, hi);
  }

  /** The mean of a nonempty sequence lies between its minimum and maximum. */
  lemma MeanWithinRange(s: seq<real>)
    requires |s| > 0
    ensures MinOf(s) <= Mean(s) <= MaxOf(s)
  {
    MeanBounds(s, MinOf(s), MaxOf(s));
  }

  lemma DivideBounds(t: real, n: real, lo: real, hi: real)
    requires 0.0 < n && n * lo <= t <= n * hi
    ensures lo <= t / n <= hi
  {
    var q := t / n;
    assert q * n == t;
    assert n * (q - lo) == t - n * lo;
    PositiveFactor(q - lo, n);
    assert n * (hi - q) == n * hi - t;
    PositiveFactor(hi - q, n);
  }

  /** The min/max box of a point set (the `min`/`max` calls over x and y), with the
      degenerate box for the empty set. It holds every point and each of its sides
      touches one. */
  function Extent(pts: seq<Point>): (b: Box)
    ensures |pts| == 0 ==> b == EmptyBox
    ensures |pts| > 0 ==> b.minX <= b.maxX && b.minY <= b.maxY
    ensures forall i :: 0 <= i < |pts| ==> b.Contains(pts[i])
    ensures |pts| > 0 ==>
      && (exists i :: 0 <= i < |pts| && pts[i].x == b.minX)
      && (exists i :: 0 <= i < |pts| && pts[i].x == b.maxX)
      && (exists i :: 0 <= i < |pts| && pts[i].y == b.minY)
      && (exists i :: 0 <= i < |pts| && pts[i].y == b.maxY)
  {
    if |pts| == 0 then EmptyBox
    else
      var xs, ys := Xs(pts), Ys(pts);
      var b := Box(MinOf(xs), MinOf(ys), MaxOf(xs), MaxOf(ys));
      assert forall i :: 0 <= i < |pts| ==> b.Contains(pts[i]) by {
        forall i | 0 <= i < |pts| ensures b.Contains(pts[i]) {
          assert xs[i] == pts[i].x && ys[i] == pts[i].y;
        }
      }
      b
  }

  /** No two points of a set are further apart along an axis than the width or the
      height of its box, and some pair spans each exactly. */
  lemma ExtentSpans(pts: seq<Point>)
    requires |pts| > 0
    ensures forall i, j :: 0 <= i < |pts| && 0 <= j < |pts| ==>
      pts[i].x - pts[j].x <= Extent(pts).Width() && pts[i].y - pts[j].y <= Extent(pts).Height()
    ensures exists i, j :: 0 <= i < |pts| && 0 <= j < |pts| && pts[i].x - pts[j].x == Extent(pts).Width()
    ensures exists i, j :: 0 <= i < |pts| && 0 <= j < |pts| && pts[i].y - pts[j].y == Extent(pts).Height()
  {
    forall i, j | 0 <= i < |pts| && 0 <= j < |pts|
      ensures pts[i].x - pts[j].x <= Extent(pts).Width() && pts[i].y - pts[j].y <= Extent(pts).Height()
    {
      PairWithinExtent(pts, i, j);
    }
    var b := Extent(pts);
    var iMaxX :| 0 <= iMaxX < |pts| && pts[iMaxX].x == b.maxX;
    var iMinX :| 0 <= iMinX < |pts| && pts[iMinX].x == b.minX;
    var iMaxY :| 0 <= iMaxY < |pts| && pts[iMaxY].y == b.maxY;
    var iMinY :| 0 <= iMinY < |pts| && pts[iMinY].y == b.minY;
    assert pts[iMaxX].x - pts[iMinX].x == b.Width();
    assert pts[iMaxY].y - pts[iMinY].y == b.Height();
  }

  lemma PairWithinExtent(pts: seq<Point>, i: nat, j: nat)
    requires i < |pts| && j < |pts|
    ensures pts[i].x - pts[j].x <= Extent(pts).Width() && pts[i].y - pts[j].y <= Extent(pts).Height()
  {
    var b := Extent(pts);
    assert b.Contains(pts[i]) && b.Contains(pts[j]);
  }

  /** The box of a single point is that point, with zero width, height and area. */
  lemma SinglePointExtent(p: Point)
    ensures Extent([p]) == Box(p.x, p.y, p.x, p.y)
    ensures Extent([p]).Area() == 0.0
  {
    assert Xs([p]) == [p.x];
    assert Ys([p]) == [p.y];
  }
}
