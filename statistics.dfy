/** The design-statistics estimator (`get_design_statistics`): the point-weighted
    centre and the maximum extent of every sampled point of every recognised
    entity, valid and phantom alike. */
module Statistics {
  import opened Geometry
  import opened Entities
  import opened Sampler
  import opened Seqs

  datatype DesignStats = DesignStats(center: Point, maxDimension: real)

  /** The scale assumed for a drawing without points. */
  const FallbackDimension: real := 1000.0

  /** The points each entity contributes: its samples if its type is recognised. */
  function SampleGroups(es: seq<Entity>, m: Numerics): (gs: seq<seq<Point>>)
    ensures |gs| == |es|
  {
    seq(|es|, i requires 0 <= i < |es| => if IsRecognised(es[i]) then Samples(es[i], m) else [])
  }

  /** Every sampled point of every recognised entity, in entity order. */
  function AllSamples(es: seq<Entity>, m: Numerics): seq<Point>
  {
    Concat(SampleGroups(es, m))
  }

  /** The global point set holds exactly the samples of the recognised entities. */
  lemma AllSamplesMember(es: seq<Entity>, m: Numerics, p: Point)
    ensures p in AllSamples(es, m) <==> exists i :: 0 <= i < |es| && IsRecognised(es[i]) && p in Samples(es[i], m)
  {
    var gs := SampleGroups(es, m);
    ConcatMember(gs, p);
    if exists g :: 0 <= g < |gs| && p in gs[g] {
      var g :| 0 <= g < |gs| && p in gs[g];
      assert IsRecognised(es[g]) && p in Samples(es[g], m);
    }
    if exists i :: 0 <= i < |es| && IsRecognised(es[i]) && p in Samples(es[i], m) {
      var i :| 0 <= i < |es| && IsRecognised(es[i]) && p in Samples(es[i], m);
      assert p in gs[i];
    }
  }

  /** The centre and extent of a point set. For no points the centre is the origin and
      the extent is 1000. Otherwise the centre is the mean of the coordinates, and the
      extent is the larger of the x and y spans: no two points are further apart than it
      along either axis, and some pair is exactly that far apart along one axis. */
  function StatsOf(pts: seq<Point>): (st: DesignStats)
    ensures |pts| == 0 ==> st == DesignStats(Point(0.0, 0.0), FallbackDimension)
    ensures |pts| > 0 ==> st.center == Point(Mean(Xs(pts)), Mean(Ys(pts)))
    ensures |pts| > 0 ==> Extent(pts).Contains(st.center)
    ensures |pts| > 0 ==> 0.0 <= st.maxDimension
    ensures forall i, j :: 0 <= i < |pts| && 0 <= j < |pts| ==>
      pts[i].x - pts[j].x <= st.maxDimension && pts[i].y - pts[j].y <= st.maxDimension
    ensures |pts| > 0 ==>
      (exists i, j :: 0 <= i < |pts| && 0 <= j < |pts| &&
        (pts[i].x - pts[j].x == st.maxDimension || pts[i].y - pts[j].y == st.maxDimension))
  {
    if |pts| == 0 then DesignStats(Point(0.0, 0.0), FallbackDimension)
    else
      var b := Extent(pts);
      NonEmptyStats(pts);
      DesignStats(Point(Mean(Xs(pts)), Mean(Ys(pts))), Max(b.Width(), b.Height()))
  }

  /** The statistics of a nonempty point set, as `StatsOf` builds them, meet its
      contract. */
  lemma NonEmptyStats(pts: seq<Point>)
    requires |pts| > 0
    ensures var b := Extent(pts);
      var st := DesignStats(Point(Mean(Xs(pts)), Mean(Ys(pts))), Max(b.Width(), b.Height()));
      && b.Contains(st.center)
      && 0.0 <= st.maxDimension
      && (forall i, j :: 0 <= i < |pts| && 0 <= j < |pts| ==>
            pts[i].x - pts[j].x <= st.maxDimension && pts[i].y - pts[j].y <= st.maxDimension)
      && (exists i, j :: 0 <= i < |pts| && 0 <= j < |pts| &&
            (pts[i].x - pts[j].x == st.maxDimension || pts[i].y - pts[j].y == st.maxDimension))
  {
    CentreInExtent(pts);
    LargerSpan(pts);
  }

  /** The mean point lies inside the box of the points. */
  lemma CentreInExtent(pts: seq<Point>)
    requires |pts| > 0
    ensures Extent(pts).Contains(Point(Mean(Xs(pts)), Mean(Ys(pts))))
  {
    MeanWithinRange(Xs(pts));
    MeanWithinRange(Ys(pts));
  }

  /** The larger of the two spans bounds every axis difference and is reached. */
  lemma LargerSpan(pts: seq<Point>)
    requires |pts| > 0
    ensures var b := Extent(pts);
      var d := Max(b.Width(), b.Height());
      && 0.0 <= d
      && (forall i, j :: 0 <= i < |pts| && 0 <= j < |pts| ==>
            pts[i].x - pts[j].x <= d && pts[i].y - pts[j].y <= d)
      && (exists i, j :: 0 <= i < |pts| && 0 <= j < |pts| &&
            (pts[i].x - pts[j].x == d || pts[i].y - pts[j].y == d))
  {
    var b := Extent(pts);
    ExtentSpans(pts);
    if b.Width() >= b.Height() {
      var i, j :| 0 <= i < |pts| && 0 <= j < |pts| && pts[i].x - pts[j].x == b.Width();
    } else {
      var i, j :| 0 <= i < |pts| && 0 <= j < |pts| && pts[i].y - pts[j].y == b.Height();
    }
  }

  /** The statistics of the whole drawing, before any entity is classified. */
  function DesignStatsOf(es: seq<Entity>, m: Numerics): DesignStats
  {
    StatsOf(AllSamples(es, m))
  }

  /** A drawing without recognised, readable entities gets the fallback statistics. */
  lemma NoSamplesFallback(es: seq<Entity>, m: Numerics)
    requires forall i :: 0 <= i < |es| ==> !IsRecognised(es[i]) || Samples(es[i], m) == []
    ensures DesignStatsOf(es, m) == DesignStats(Point(0.0, 0.0), FallbackDimension)
  {
    var pts := AllSamples(es, m);
    if |pts| > 0 {
      AllSamplesMember(es, m, pts[0]);
      assert false;
    }
  }
}
