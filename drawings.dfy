/** Whole-run results for two small drawings of two lines each: one cut line and one
    line on the "DEFPOINTS" layer. */
module Drawings {
  import opened Geometry
  import opened Entities
  import opened Sampler
  import opened Classifier
  import opened Statistics
  import opened Aggregator
  import opened Seqs

  lemma ConcatPair<T>(a: seq<T>, b: seq<T>)
    ensures Concat([a, b]) == a + b
  {
    assert [a, b][..1] == [a];
    assert [a][..0] == [];
    assert Concat([a]) == a;
  }

  lemma SumOfFour(w: real, x: real, y: real, z: real)
    ensures Sum([w, x, y, z]) == w + x + y + z
  {
    assert [w, x, y, z][1..] == [x, y, z];
    assert [x, y, z][1..] == [y, z];
    assert [y, z][1..] == [z];
    assert [z][1..] == [];
    assert Sum([z]) == z;
    assert Sum([y, z]) == y + z;
  }

  const CutLine := Entity(Line(Point(0.0, 0.0), Point(10.0, 0.0)), "CUT", false)
  const DefpointsLine := Entity(Line(Point(100.0, 100.0), Point(110.0, 100.0)), "DEFPOINTS", false)
  const Endpoints := [Point(0.0, 0.0), Point(10.0, 0.0), Point(100.0, 100.0), Point(110.0, 100.0)]

  /** The design statistics of the two lines: the centre of the four endpoints is
      (55, 50), and the extent is the x span 110 (the y span is 100). */
  lemma TwoLineStats(m: Numerics)
    ensures DesignStatsOf([CutLine, DefpointsLine], m) == DesignStats(Point(55.0, 50.0), 110.0)
  {
    var es := [CutLine, DefpointsLine];
    assert SampleGroups(es, m) == [Samples(CutLine, m), Samples(DefpointsLine, m)];
    ConcatPair(Samples(CutLine, m), Samples(DefpointsLine, m));
    assert AllSamples(es, m) == Endpoints;
    EndpointStats();
  }

  lemma EndpointStats()
    ensures StatsOf(Endpoints) == DesignStats(Point(55.0, 50.0), 110.0)
  {
    var pts := Endpoints;
    assert Xs(pts) == [0.0, 10.0, 100.0, 110.0];
    assert Ys(pts) == [0.0, 0.0, 100.0, 100.0];
    SumOfFour(0.0, 10.0, 100.0, 110.0);
    SumOfFour(0.0, 0.0, 100.0, 100.0);
    assert Mean(Xs(pts)) == 55.0 && Mean(Ys(pts)) == 50.0;
    EndpointsExtent();
  }

  lemma EndpointsExtent()
    ensures Extent(Endpoints) == Box(0.0, 0.0, 110.0, 100.0)
  {
    var xs, ys := Xs(Endpoints), Ys(Endpoints);
    assert xs == [0.0, 10.0, 100.0, 110.0];
    assert ys == [0.0, 0.0, 100.0, 100.0];
    OrderedFour(0.0, 10.0, 100.0, 110.0);
    OrderedFour(0.0, 0.0, 100.0, 100.0);
  }

  lemma OrderedFour(a: real, b: real, c: real, d: real)
    requires a <= b <= c <= d
    ensures MinOf([a, b, c, d]) == a && MaxOf([a, b, c, d]) == d
  {
    var s := [a, b, c, d];
    assert forall i :: 0 <= i < |s| ==> a <= s[i] <= d;
    var lo, hi := MinOf(s), MaxOf(s);
    assert lo in s && lo <= s[0];
    assert hi in s && s[3] <= hi;
  }

  lemma SelectPair(p1: Processed, p2: Processed, valid: bool)
    ensures Select([p1, p2], valid) ==
      (if p1.isValid == valid then [p1] else []) + (if p2.isValid == valid then [p2] else [])
  {
    assert [p1, p2][..1] == [p1] && [p1][..0] == [];
    var one := [p1];
    assert one[..|one| - 1] == [];
    assert Select([], valid) == [];
    assert Select(one, valid) == if p1.isValid == valid then [p1] else [];
  }

  /** Two entities that both give records give those two records, in order. */
  lemma TwoRecords(e1: Entity, e2: Entity, st: DesignStats, m: Numerics, p1: Processed, p2: Processed)
    requires ProcessEntity(e1, st, m) == Some(p1) && ProcessEntity(e2, st, m) == Some(p2)
    ensures ProcessAll([e1, e2], st, m) == [p1, p2]
  {
    var gs := EmitGroups([e1, e2], st, m);
    assert gs[0] == Emit(e1, st, m) == [p1];
    assert gs[1] == Emit(e2, st, m) == [p2];
    assert gs == [[p1], [p2]];
    ConcatPair([p1], [p2]);
  }

  /** A drawing of two entities that both give records results in those two records,
      split by validity. */
  lemma TwoRecordRun(e1: Entity, e2: Entity, m: Numerics, p1: Processed, p2: Processed)
    requires ProcessEntity(e1, DesignStatsOf([e1, e2], m), m) == Some(p1)
    requires ProcessEntity(e2, DesignStatsOf([e1, e2], m), m) == Some(p2)
    ensures var a := AnalysisOf([e1, e2], m);
      && a.valid == (if p1.isValid then [p1] else []) + (if p2.isValid then [p2] else [])
      && a.phantom == (if p1.isValid then [] else [p1]) + (if p2.isValid then [] else [p2])
  {
    TwoRecords(e1, e2, DesignStatsOf([e1, e2], m), m, p1, p2);
    SelectPair(p1, p2, true);
    SelectPair(p1, p2, false);
  }

  /** The cut line touches the origin and is rejected for that, whatever the statistics. */
  lemma CutLineRecord(st: DesignStats, m: Numerics)
    ensures ProcessEntity(CutLine, st, m) ==
      Some(Processed("LINE", [Point(0.0, 0.0), Point(10.0, 0.0)], Dist(Point(0.0, 0.0), Point(10.0, 0.0), m),
                     "CUT", false, Some(ConnectsToOrigin)))
  {
    assert Upper("CUT") == "CUT";
  }

  /** The line on "DEFPOINTS" is rejected for its layer. */
  lemma DefpointsLineRecord(st: DesignStats, m: Numerics)
    ensures ProcessEntity(DefpointsLine, st, m) ==
      Some(Processed("LINE", [Point(100.0, 100.0), Point(110.0, 100.0)],
                     Dist(Point(100.0, 100.0), Point(110.0, 100.0), m),
                     "DEFPOINTS", false, Some(PhantomLayer("DEFPOINTS"))))
  {
    var pts := [Point(100.0, 100.0), Point(110.0, 100.0)];
    assert Samples(DefpointsLine, m) == pts;
    assert Upper("DEFPOINTS") == "DEFPOINTS";
    DefpointsIsPhantom(DefpointsLine, pts, st.center, st.maxDimension, m);
    ProcessEntityRecord(DefpointsLine, st, m);
  }

  /** A cut line starting at the origin is rejected by the origin rule, even though it
      lies on an ordinary layer; the other line is rejected for its layer. No entity is
      valid, so the box is the empty box and the cut length is 0, while the statistics
      count both lines. */
  lemma OriginLineDrawing(m: Numerics)
    ensures var a := AnalysisOf([CutLine, DefpointsLine], m);
      && a.totalEntities == 2 && a.validCount == 0 && a.phantomCount == 2
      && a.stats == DesignStats(Point(55.0, 50.0), 110.0)
      && a.valid == []
      && |a.phantom| == 2
      && a.phantom[0].rejectionReason == Some(ConnectsToOrigin)
      && a.phantom[1].rejectionReason == Some(PhantomLayer("DEFPOINTS"))
      && a.boundingBox == EmptyBox
      && a.totalCutLengthMm == 0.0 && a.totalCutLengthM == 0.0
  {
    TwoLineStats(m);
    var st := DesignStatsOf([CutLine, DefpointsLine], m);
    CutLineRecord(st, m);
    DefpointsLineRecord(st, m);
    TwoRecordRun(CutLine, DefpointsLine, m, ProcessEntity(CutLine, st, m).value,
                 ProcessEntity(DefpointsLine, st, m).value);
  }

  const ShiftedCutLine := Entity(Line(Point(1.0, 1.0), Point(11.0, 1.0)), "CUT", false)
  const ShiftedEndpoints := [Point(1.0, 1.0), Point(11.0, 1.0), Point(100.0, 100.0), Point(110.0, 100.0)]

  lemma ShiftedStats(m: Numerics)
    ensures DesignStatsOf([ShiftedCutLine, DefpointsLine], m) == DesignStats(Point(55.5, 50.5), 109.0)
  {
    var es := [ShiftedCutLine, DefpointsLine];
    assert SampleGroups(es, m) == [Samples(ShiftedCutLine, m), Samples(DefpointsLine, m)];
    ConcatPair(Samples(ShiftedCutLine, m), Samples(DefpointsLine, m));
    assert AllSamples(es, m) == ShiftedEndpoints;
    ShiftedEndpointStats();
  }

  lemma ShiftedEndpointStats()
    ensures StatsOf(ShiftedEndpoints) == DesignStats(Point(55.5, 50.5), 109.0)
  {
    var pts := ShiftedEndpoints;
    assert Xs(pts) == [1.0, 11.0, 100.0, 110.0];
    assert Ys(pts) == [1.0, 1.0, 100.0, 100.0];
    SumOfFour(1.0, 11.0, 100.0, 110.0);
    SumOfFour(1.0, 1.0, 100.0, 100.0);
    assert Mean(Xs(pts)) == 55.5 && Mean(Ys(pts)) == 50.5;
    OrderedFour(1.0, 11.0, 100.0, 110.0);
    OrderedFour(1.0, 1.0, 100.0, 100.0);
    assert Extent(pts) == Box(1.0, 1.0, 110.0, 100.0);
  }

  /** Away from the origin the cut line passes every rule: it is 10 long, well under ten
      times the extent 109, and its midpoint (6, 1) lies about 70 from the centre
      (55.5, 50.5), well within five times the extent. */
  lemma ShiftedCutLineRecord(m: Numerics)
    requires m.Sound()
    ensures ProcessEntity(ShiftedCutLine, DesignStats(Point(55.5, 50.5), 109.0), m) ==
      Some(Processed("LINE", [Point(1.0, 1.0), Point(11.0, 1.0)], 10.0, "CUT", true, None))
  {
    assert Upper("CUT") == "CUT";
    var a, b := Point(1.0, 1.0), Point(11.0, 1.0);
    DistFromSquare(a, b, 10.0, m);
    assert SquaredDist(Midpoint(a, b), Point(55.5, 50.5)) == 4900.5;
    DistFromSquare(Midpoint(a, b), Point(55.5, 50.5), 545.0, m);
  }

  /** The same drawing with the cut line moved off the origin: the cut line is the one
      valid entity, so the box is its own (from (1, 1) to (11, 1), of area 0) and the
      cut length is 10 mm, that is 0.01 m. */
  lemma ShiftedLineDrawing(m: Numerics)
    requires m.Sound()
    ensures var a := AnalysisOf([ShiftedCutLine, DefpointsLine], m);
      && a.totalEntities == 2 && a.validCount == 1 && a.phantomCount == 1
      && a.stats == DesignStats(Point(55.5, 50.5), 109.0)
      && a.valid == [Processed("LINE", [Point(1.0, 1.0), Point(11.0, 1.0)], 10.0, "CUT", true, None)]
      && |a.phantom| == 1 && a.phantom[0].rejectionReason == Some(PhantomLayer("DEFPOINTS"))
      && a.boundingBox == Box(1.0, 1.0, 11.0, 1.0) && a.boundingBox.Area() == 0.0
      && a.totalCutLengthMm == 10.0 && a.totalCutLengthM == 0.01
  {
    ShiftedStats(m);
    var st := DesignStatsOf([ShiftedCutLine, DefpointsLine], m);
    ShiftedCutLineRecord(m);
    DefpointsLineRecord(st, m);
    var p1 := ProcessEntity(ShiftedCutLine, st, m).value;
    TwoRecordRun(ShiftedCutLine, DefpointsLine, m, p1, ProcessEntity(DefpointsLine, st, m).value);
    SingleRecordBox(p1);
  }

  lemma SingleRecordBox(p: Processed)
    requires p.points == [Point(1.0, 1.0), Point(11.0, 1.0)] && p.length == 10.0
    ensures BoundingBoxOf([p]) == Box(1.0, 1.0, 11.0, 1.0)
    ensures SumLengths([p]) == 10.0
  {
    assert [p][..0] == [];
    assert PointGroups([p]) == [p.points];
    assert Concat([p.points]) == p.points by {
      assert [p.points][..0] == [];
    }
    var xs := Xs(p.points);
    assert xs == [1.0, 11.0];
    assert xs[1..] == [11.0];
    assert Ys(p.points) == [1.0, 1.0];
    assert Ys(p.points)[1..] == [1.0];
  }
}
