/** The aggregator: the per-entity records of one run, their split into valid and
    phantom entities, the cut length and the bounding box of the valid ones, and the
    result record. These functions specify the processor's loop. */
module Aggregator {
  import opened Geometry
  import opened Entities
  import opened Sampler
  import opened Classifier
  import opened Statistics
  import opened Seqs

  /** One processed entity (`ProcessedEntity`). */
  datatype Processed = Processed(
    entityType: string,
    points: seq<Point>,
    length: real,
    layer: string,
    isValid: bool,
    rejectionReason: Option<Reason>)

  /** The record of one run over a list of entities. */
  datatype Analysis = Analysis(
    totalEntities: nat,
    validCount: nat,
    phantomCount: nat,
    stats: DesignStats,
    boundingBox: Box,
    totalCutLengthMm: real,
    totalCutLengthM: real,
    valid: seq<Processed>,
    phantom: seq<Processed>)

  /** The record of one entity, or None when the processor skips it: its type is not
      recognised or it yields no points. */
  function ProcessEntity(e: Entity, st: DesignStats, m: Numerics): (r: Option<Processed>)
    ensures r.None? <==> !IsRecognised(e) || Samples(e, m) == []
    ensures r.Some? ==> |r.value.points| > 0
  {
    if !IsRecognised(e) then None
    else
      var pts := Samples(e, m);
      if |pts| == 0 then None
      else
        var v := Classify(e, pts, st.center, st.maxDimension, m);
        Some(Processed(DxfType(e), pts, Length(e, pts, m), e.layer, v == Valid,
                       if v.Phantom? then Some(v.reason) else None))
  }

  /** The record of a processed entity: its type name, its samples, its length, its
      layer as written, and the classifier's verdict, with a reason exactly when the
      verdict is phantom. */
  lemma ProcessEntityRecord(e: Entity, st: DesignStats, m: Numerics)
    requires IsRecognised(e) && Samples(e, m) != []
    ensures ProcessEntity(e, st, m).Some?
    ensures var p := ProcessEntity(e, st, m).value;
      var v := Classify(e, Samples(e, m), st.center, st.maxDimension, m);
      && p.entityType == DxfType(e)
      && p.points == Samples(e, m)
      && p.length == Length(e, Samples(e, m), m)
      && p.layer == e.layer
      && (p.isValid <==> v == Valid)
      && (p.isValid <==> p.rejectionReason.None?)
      && (!p.isValid ==> p.rejectionReason == Some(v.reason))
  {
  }

  /** The records one entity contributes: its record, or none when it is skipped. */
  function Emit(e: Entity, st: DesignStats, m: Numerics): seq<Processed>
  {
    match ProcessEntity(e, st, m)
    case Some(p) => [p]
    case None => []
  }

  function EmitGroups(es: seq<Entity>, st: DesignStats, m: Numerics): (gs: seq<seq<Processed>>)
    ensures |gs| == |es|
    ensures forall i :: 0 <= i < |gs| ==> |gs[i]| <= 1
  {
    seq(|es|, i requires 0 <= i < |es| => Emit(es[i], st, m))
  }

  /** The records of all entities that are not skipped, in input order. */
  function ProcessAll(es: seq<Entity>, st: DesignStats, m: Numerics): seq<Processed>
  {
    Concat(EmitGroups(es, st, m))
  }

  /** Processing one more entity appends its record, if any. */
  lemma ProcessAllSnoc(es: seq<Entity>, e: Entity, st: DesignStats, m: Numerics)
    ensures ProcessAll(es + [e], st, m) == ProcessAll(es, st, m) + Emit(e, st, m)
  {
    assert EmitGroups(es + [e], st, m) == EmitGroups(es, st, m) + [Emit(e, st, m)];
    ConcatAppend(EmitGroups(es, st, m), [Emit(e, st, m)]);
    assert Concat([Emit(e, st, m)]) == Emit(e, st, m) by {
      assert [Emit(e, st, m)][..0] == [];
    }
  }

  /** The records whose validity is `valid`, in order. */
  function Select(ps: seq<Processed>, valid: bool): (r: seq<Processed>)
    ensures |r| <= |ps|
    ensures forall k :: 0 <= k < |r| ==> r[k].isValid == valid
  {
    if |ps| == 0 then []
    else Select(ps[..|ps| - 1], valid) + (if ps[|ps| - 1].isValid == valid then [ps[|ps| - 1]] else [])
  }

  /** The sum of the records' lengths. */
  function SumLengths(ps: seq<Processed>): real
  {
    if |ps| == 0 then 0.0 else SumLengths(ps[..|ps| - 1]) + ps[|ps| - 1].length
  }

  function PointGroups(ps: seq<Processed>): (gs: seq<seq<Point>>)
    ensures |gs| == |ps| && forall i :: 0 <= i < |ps| ==> gs[i] == ps[i].points
  {
    seq(|ps|, i requires 0 <= i < |ps| => ps[i].points)
  }

  /** Every point of every record, in order. */
  function PointsOf(ps: seq<Processed>): seq<Point>
  {
    Concat(PointGroups(ps))
  }

  /** The bounding box of a list of records (`calculate_bounding_box`). */
  function BoundingBoxOf(ps: seq<Processed>): Box
  {
    if |ps| == 0 then EmptyBox
    else
      var pts := PointsOf(ps);
      if |pts| == 0 then EmptyBox else Extent(pts)
  }

  /** The result of one run over the entities (the loop of `process_dxf_file`). */
  function AnalysisOf(es: seq<Entity>, m: Numerics): Analysis
  {
    var st := DesignStatsOf(es, m);
    var ps := ProcessAll(es, st, m);
    var valid, phantom := Select(ps, true), Select(ps, false);
    var total := SumLengths(valid);
    Analysis(|es|, |valid|, |phantom|, st, BoundingBoxOf(valid), total, total / 1000.0, valid, phantom)
  }

  // ---- the records of a run ----

  /** A record is produced exactly for each entity that is not skipped. */
  lemma ProcessAllMember(es: seq<Entity>, st: DesignStats, m: Numerics, p: Processed)
    ensures p in ProcessAll(es, st, m) <==> exists i :: 0 <= i < |es| && ProcessEntity(es[i], st, m) == Some(p)
  {
    var gs := EmitGroups(es, st, m);
    ConcatMember(gs, p);
    assert forall i :: 0 <= i < |es| ==> (p in gs[i] <==> ProcessEntity(es[i], st, m) == Some(p));
  }

  /** There are at most as many records as entities, and each has points. */
  lemma ProcessAllShape(es: seq<Entity>, st: DesignStats, m: Numerics)
    ensures |ProcessAll(es, st, m)| <= |es|
    ensures forall k :: 0 <= k < |ProcessAll(es, st, m)| ==> |ProcessAll(es, st, m)[k].points| > 0
  {
    var gs := EmitGroups(es, st, m);
    ConcatLength(gs, 1);
    forall k | 0 <= k < |ProcessAll(es, st, m)|
      ensures |ProcessAll(es, st, m)[k].points| > 0
    {
      var p := ProcessAll(es, st, m)[k];
      ProcessAllMember(es, st, m, p);
    }
  }

  /** Processing a list in two pieces gives the records of the first piece followed by
      those of the second: records keep the input order. */
  lemma ProcessAllAppend(a: seq<Entity>, b: seq<Entity>, st: DesignStats, m: Numerics)
    ensures ProcessAll(a + b, st, m) == ProcessAll(a, st, m) + ProcessAll(b, st, m)
  {
    var gab, ga, gb := EmitGroups(a + b, st, m), EmitGroups(a, st, m), EmitGroups(b, st, m);
    forall i | 0 <= i < |gab|
      ensures gab[i] == (ga + gb)[i]
    {
      if i < |a| {
        assert (a + b)[i] == a[i];
      } else {
        assert (a + b)[i] == b[i - |a|];
      }
    }
    assert gab == ga + gb;
    ConcatAppend(EmitGroups(a, st, m), EmitGroups(b, st, m));
  }

  // ---- the split into valid and phantom ----

  /** A record is in the valid (phantom) list exactly when it is a record of the run
      and is (is not) valid. */
  lemma {:induction false} SelectMember(ps: seq<Processed>, valid: bool, p: Processed)
    ensures p in Select(ps, valid) <==> p in ps && p.isValid == valid
  {
    if |ps| > 0 {
      var init := ps[..|ps| - 1];
      SelectMember(init, valid, p);
      assert ps == init + [ps[|ps| - 1]];
    }
  }

  /** Selecting from two pieces gives the selection of the first followed by that of
      the second: each list keeps the input order. */
  lemma {:induction false} SelectAppend(a: seq<Processed>, b: seq<Processed>, valid: bool)
    ensures Select(a + b, valid) == Select(a, valid) + Select(b, valid)
    decreases |b|
  {
    if |b| == 0 {
      assert a + b == a;
    } else {
      var ab := a + b;
      assert ab[..|ab| - 1] == a + b[..|b| - 1];
      assert ab[|ab| - 1] == b[|b| - 1];
      SelectAppend(a, b[..|b| - 1], valid);
    }
  }

  /** Every record lands in exactly one of the two lists. */
  lemma {:induction false} SelectPartition(ps: seq<Processed>)
    ensures multiset(Select(ps, true)) + multiset(Select(ps, false)) == multiset(ps)
  {
    if |ps| > 0 {
      var init, last := ps[..|ps| - 1], ps[|ps| - 1];
      SelectPartition(init);
      SelectLast(ps, true);
      SelectLast(ps, false);
      MultisetLast(ps);
      PartitionSnoc(Select(init, true), Select(init, false), init, last, last.isValid,
                    Select(ps, true), Select(ps, false));
    }
  }

  /** The selection from a nonempty list is that of all but its last record, followed
      by the last record when it matches. */
  lemma SelectLast(ps: seq<Processed>, valid: bool)
    requires |ps| > 0
    ensures Select(ps, valid) == Select(ps[..|ps| - 1], valid) +
      (if ps[|ps| - 1].isValid == valid then [ps[|ps| - 1]] else [])
  {
  }

  lemma MultisetLast<T>(s: seq<T>)
    requires |s| > 0
    ensures multiset(s) == multiset(s[..|s| - 1]) + multiset{s[|s| - 1]}
  {
    assert s == s[..|s| - 1] + [s[|s| - 1]];
  }

  /** Adding an element to one part of a partition, and to the whole, keeps it a
      partition. */
  lemma PartitionSnoc<T>(a: seq<T>, b: seq<T>, whole: seq<T>, x: T, left: bool, a': seq<T>, b': seq<T>)
    requires multiset(a) + multiset(b) == multiset(whole)
    requires a' == a + (if left == true then [x] else []) && b' == b + (if left == false then [x] else [])
    ensures multiset(a') + multiset(b') == multiset(whole) + multiset{x}
  {
    if left {
      assert b' == b;
    } else {
      assert a' == a;
    }
  }

  /** The two lists together are as long as the list of records. */
  lemma SelectCount(ps: seq<Processed>)
    ensures |Select(ps, true)| + |Select(ps, false)| == |ps|
  {
    SelectPartition(ps);
    assert |multiset(Select(ps, true))| == |Select(ps, true)|;
    assert |multiset(Select(ps, false))| == |Select(ps, false)|;
    assert |multiset(ps)| == |ps|;
  }

  /** The lengths of the two lists add up to the length of all records. */
  lemma {:induction false} SumLengthsPartition(ps: seq<Processed>)
    ensures SumLengths(Select(ps, true)) + SumLengths(Select(ps, false)) == SumLengths(ps)
  {
    if |ps| > 0 {
      var init := ps[..|ps| - 1];
      var last := ps[|ps| - 1];
      SumLengthsPartition(init);
      SumLengthsAppend(Select(init, true), if last.isValid then [last] else []);
      SumLengthsAppend(Select(init, false), if last.isValid then [] else [last]);
    }
  }

  lemma {:induction false} SumLengthsAppend(a: seq<Processed>, b: seq<Processed>)
    ensures SumLengths(a + b) == SumLengths(a) + SumLengths(b)
    decreases |b|
  {
    if |b| == 0 {
      assert a + b == a;
    } else {
      var ab := a + b;
      assert ab[..|ab| - 1] == a + b[..|b| - 1];
      SumLengthsAppend(a, b[..|b| - 1]);
    }
  }

  lemma {:induction false} SumLengthsNonNegative(ps: seq<Processed>)
    requires forall k :: 0 <= k < |ps| ==> 0.0 <= ps[k].length
    ensures 0.0 <= SumLengths(ps)
  {
    if |ps| > 0 {
      SumLengthsNonNegative(ps[..|ps| - 1]);
    }
  }

  // ---- the bounding box ----

  lemma PointsOfMember(ps: seq<Processed>, p: Point)
    ensures p in PointsOf(ps) <==> exists k :: 0 <= k < |ps| && p in ps[k].points
  {
    ConcatMember(PointGroups(ps), p);
  }

  /** The bounding box holds every point of every record. It is the degenerate box
      when there are no points (a lone point at the origin gives it too); otherwise its minima do not exceed its maxima
      and each of its sides touches a point. */
  lemma BoundingBoxProperties(ps: seq<Processed>)
    ensures forall k, j :: 0 <= k < |ps| && 0 <= j < |ps[k].points| ==>
      BoundingBoxOf(ps).Contains(ps[k].points[j])
    ensures |PointsOf(ps)| == 0 ==> BoundingBoxOf(ps) == EmptyBox
    ensures |PointsOf(ps)| > 0 ==>
      var b := BoundingBoxOf(ps);
      && b.minX <= b.maxX && b.minY <= b.maxY
      && (exists q :: q in PointsOf(ps) && q.x == b.minX)
      && (exists q :: q in PointsOf(ps) && q.x == b.maxX)
      && (exists q :: q in PointsOf(ps) && q.y == b.minY)
      && (exists q :: q in PointsOf(ps) && q.y == b.maxY)
  {
    var pts := PointsOf(ps);
    forall k, j | 0 <= k < |ps| && 0 <= j < |ps[k].points|
      ensures BoundingBoxOf(ps).Contains(ps[k].points[j])
    {
      var q := ps[k].points[j];
      PointsOfMember(ps, q);
      var i :| 0 <= i < |pts| && pts[i] == q;
    }
    if |pts| > 0 {
      var b := Extent(pts);
      var i0 :| 0 <= i0 < |pts| && pts[i0].x == b.minX;
      var i1 :| 0 <= i1 < |pts| && pts[i1].x == b.maxX;
      var i2 :| 0 <= i2 < |pts| && pts[i2].y == b.minY;
      var i3 :| 0 <= i3 < |pts| && pts[i3].y == b.maxY;
      assert pts[i0] in pts && pts[i1] in pts && pts[i2] in pts && pts[i3] in pts;
    }
  }

  // ---- one whole run ----

  /** The counts of a run: every record is counted in exactly one list, and there are
      no more records than entities. */
  lemma AnalysisCounts(es: seq<Entity>, m: Numerics)
    ensures var r := AnalysisOf(es, m);
      && r.validCount == |r.valid| && r.phantomCount == |r.phantom|
      && r.validCount + r.phantomCount <= r.totalEntities == |es|
  {
    var st := DesignStatsOf(es, m);
    SelectCount(ProcessAll(es, st, m));
    ProcessAllShape(es, st, m);
  }

  /** The valid list holds exactly the records of the entities that are processed and
      judged valid, and the phantom list exactly those judged phantom; no record is
      rejected for having no points, since such entities are skipped. */
  lemma AnalysisLists(es: seq<Entity>, m: Numerics, p: Processed)
    ensures var r := AnalysisOf(es, m);
      && (p in r.valid <==> p.isValid && exists i :: 0 <= i < |es| && ProcessEntity(es[i], r.stats, m) == Some(p))
      && (p in r.phantom <==> !p.isValid && exists i :: 0 <= i < |es| && ProcessEntity(es[i], r.stats, m) == Some(p))
      && (p in r.phantom ==> p.rejectionReason.Some? && p.rejectionReason != Some(NoPoints))
  {
    var st := DesignStatsOf(es, m);
    var ps := ProcessAll(es, st, m);
    SelectMember(ps, true, p);
    SelectMember(ps, false, p);
    ProcessAllMember(es, st, m, p);
    if p in Select(ps, false) {
      var i :| 0 <= i < |es| && ProcessEntity(es[i], st, m) == Some(p);
      ProcessEntityRecord(es[i], st, m);
    }
  }

  /** The cut length counts the valid entities only: together with the phantom
      entities' length it makes up the length of all records; in metres it is the
      millimetre figure divided by 1000. */
  lemma AnalysisCutLength(es: seq<Entity>, m: Numerics)
    ensures var r := AnalysisOf(es, m);
      && r.totalCutLengthMm == SumLengths(r.valid)
      && r.totalCutLengthMm + SumLengths(r.phantom) == SumLengths(ProcessAll(es, r.stats, m))
      && r.totalCutLengthM == r.totalCutLengthMm / 1000.0
  {
    SumLengthsPartition(ProcessAll(es, DesignStatsOf(es, m), m));
  }

  /** With a sound math library and nonnegative radii the cut length is nonnegative. */
  lemma AnalysisCutLengthNonNegative(es: seq<Entity>, m: Numerics)
    requires m.Sound()
    requires forall i :: 0 <= i < |es| && (es[i].shape.Circle? || es[i].shape.Arc?) ==> 0.0 <= es[i].shape.radius
    ensures 0.0 <= AnalysisOf(es, m).totalCutLengthMm
  {
    var st := DesignStatsOf(es, m);
    var ps := ProcessAll(es, st, m);
    var valid := Select(ps, true);
    forall k | 0 <= k < |valid|
      ensures 0.0 <= valid[k].length
    {
      RecordLengthNonNegative(es, st, m, valid[k]);
    }
    SumLengthsNonNegative(valid);
  }

  /** A record of a run has a nonnegative length, for a sound math library and
      nonnegative radii. */
  lemma RecordLengthNonNegative(es: seq<Entity>, st: DesignStats, m: Numerics, p: Processed)
    requires m.Sound()
    requires forall i :: 0 <= i < |es| && (es[i].shape.Circle? || es[i].shape.Arc?) ==> 0.0 <= es[i].shape.radius
    requires p in Select(ProcessAll(es, st, m), true)
    ensures 0.0 <= p.length
  {
    SelectMember(ProcessAll(es, st, m), true, p);
    ProcessAllMember(es, st, m, p);
    var i :| 0 <= i < |es| && ProcessEntity(es[i], st, m) == Some(p);
    ProcessEntityRecord(es[i], st, m);
    LengthNonNegative(es[i], Samples(es[i], m), m);
  }

  /** The bounding box of a run covers every point of every valid entity; it is the
      degenerate box when no entity is valid. */
  lemma AnalysisBoundingBox(es: seq<Entity>, m: Numerics)
    ensures var r := AnalysisOf(es, m);
      && (forall k, j :: 0 <= k < |r.valid| && 0 <= j < |r.valid[k].points| ==>
            r.boundingBox.Contains(r.valid[k].points[j]))
      && (r.validCount == 0 ==> r.boundingBox == EmptyBox)
      && (r.validCount > 0 ==> r.boundingBox.minX <= r.boundingBox.maxX && r.boundingBox.minY <= r.boundingBox.maxY)
  {
    var st := DesignStatsOf(es, m);
    var valid := Select(ProcessAll(es, st, m), true);
    BoundingBoxProperties(valid);
    if |valid| > 0 {
      var p := valid[0];
      RecordHasPoints(es, st, m, p);
      PointsOfMember(valid, p.points[0]);
    }
  }

  /** Every valid record of a run has at least one point. */
  lemma RecordHasPoints(es: seq<Entity>, st: DesignStats, m: Numerics, p: Processed)
    requires p in Select(ProcessAll(es, st, m), true)
    ensures |p.points| > 0
  {
    SelectMember(ProcessAll(es, st, m), true, p);
    ProcessAllMember(es, st, m, p);
  }

  /** An empty drawing is a successful run with nothing in it. */
  lemma EmptyDrawing(m: Numerics)
    ensures AnalysisOf([], m) ==
      Analysis(0, 0, 0, DesignStats(Point(0.0, 0.0), FallbackDimension), EmptyBox, 0.0, 0.0, [], [])
  {
  }
}
