/** The processor (`DXFProcessor`): the loops that sample entities, measure them,
    gather the design statistics and the bounding box, and split a drawing's
    entities into valid and phantom lists, each proved to compute the functions of
    the Sampler, Statistics and Aggregator modules. */
module Processor {
  import opened Geometry
  import opened Entities
  import opened Sampler
  import opened Classifier
  import opened Statistics
  import opened Aggregator
  import opened Seqs

  lemma PathLengthStep(pts: seq<Point>, i: nat, m: Numerics)
    requires i + 1 < |pts|
    ensures PathLength(pts[..i + 2], m) == PathLength(pts[..i + 1], m) + Dist(pts[i], pts[i + 1], m)
  {
    assert pts[..i + 2][..i + 1] == pts[..i + 1];
  }

  lemma AllSamplesSnoc(es: seq<Entity>, e: Entity, m: Numerics)
    ensures AllSamples(es + [e], m) == AllSamples(es, m) + (if IsRecognised(e) then Samples(e, m) else [])
  {
    var g := if IsRecognised(e) then Samples(e, m) else [];
    assert SampleGroups(es + [e], m) == SampleGroups(es, m) + [g];
    ConcatAppend(SampleGroups(es, m), [g]);
    assert [g][..0] == [];
  }

  lemma PointsOfSnoc(ps: seq<Processed>, p: Processed)
    ensures PointsOf(ps + [p]) == PointsOf(ps) + p.points
  {
    assert PointGroups(ps + [p]) == PointGroups(ps) + [p.points];
    ConcatAppend(PointGroups(ps), [p.points]);
    assert [p.points][..0] == [];
  }

  lemma SelectSnoc(ps: seq<Processed>, out: seq<Processed>, valid: bool)
    requires |out| <= 1
    ensures Select(ps + out, valid) ==
      Select(ps, valid) + (if |out| == 1 && out[0].isValid == valid then out else [])
  {
    if |out| == 1 {
      assert (ps + out)[..|ps|] == ps;
    } else {
      assert ps + out == ps;
    }
  }

  /** One step of the classification loop: the records so far grow by the record of
      the next entity, if any, and only the list matching its validity grows. */
  lemma RunStep(es: seq<Entity>, i: nat, st: DesignStats, m: Numerics, done: seq<Processed>, record: Option<Processed>)
    requires i < |es| && done == ProcessAll(es[..i], st, m) && record == ProcessEntity(es[i], st, m)
    ensures record.None? ==> ProcessAll(es[..i + 1], st, m) == done
    ensures record.Some? ==> ProcessAll(es[..i + 1], st, m) == done + [record.value]
    ensures record.Some? ==>
      Select(done + [record.value], true) ==
        Select(done, true) + (if record.value.isValid then [record.value] else [])
    ensures record.Some? ==>
      Select(done + [record.value], false) ==
        Select(done, false) + (if record.value.isValid then [] else [record.value])
  {
    assert es[..i + 1] == es[..i] + [es[i]];
    ProcessAllSnoc(es[..i], es[i], st, m);
    if record.Some? {
      SelectSnoc(done, [record.value], true);
      SelectSnoc(done, [record.value], false);
    }
  }

  class DxfProcessor {
    var validEntities: seq<Processed>
    var phantomEntities: seq<Processed>

    constructor ()
      ensures validEntities == [] && phantomEntities == []
    {
      validEntities := [];
      phantomEntities := [];
    }

    /** The sample points of one entity (`get_entity_points`). */
    method EntityPoints(e: Entity, m: Numerics) returns (points: seq<Point>)
      ensures points == Samples(e, m)
    {
      points := [];
      match e.shape {
        case Line(s, t) =>
          points := [s, t];
        case LwPolyline(vs) =>
          for i := 0 to |vs|
            invariant points == vs[..i]
          {
            points := points + [vs[i]];
          }
          assert vs[..|vs|] == vs;
        case Polyline(vs) =>
          for i := 0 to |vs|
            invariant points == vs[..i]
          {
            points := points + [vs[i]];
          }
          assert vs[..|vs|] == vs;
        case Circle(c, r) =>
          for i := 0 to 16
            invariant |points| == i
            invariant forall k :: 0 <= k < i ==> points[k] == CircleSample(c, r, k, m)
          {
            var angle := 2.0 * Pi * (i as real) / 16.0;
            assert angle == CircleAngle(i);
            points := points + [PolarPoint(c, r, angle, m)];
          }
        case Arc(c, r, d0, d1) =>
          var startAngle, endAngle := Radians(d0), Radians(d1);
          var segments := 16;
          for i := 0 to segments + 1
            invariant |points| == i
            invariant forall k :: 0 <= k < i ==> points[k] == ArcSample(c, r, d0, d1, k, m)
          {
            var angle := startAngle + (endAngle - startAngle) * (i as real) / (segments as real);
            assert angle == ArcAngle(Radians(d0), Radians(d1), i);
            points := points + [PolarPoint(c, r, angle, m)];
          }
        case Malformed(_) =>
        case Unsupported(_) =>
      }
    }

    /** The length of one entity from its points (`calculate_entity_length`). */
    method EntityLength(e: Entity, points: seq<Point>, m: Numerics) returns (length: real)
      ensures length == Length(e, points, m)
    {
      var t := DxfType(e);
      if t == "LINE" {
        length := if |points| >= 2 then Dist(points[0], points[1], m) else 0.0;
      } else if t == "LWPOLYLINE" || t == "POLYLINE" {
        length := 0.0;
        var i := 0;
        while i < |points| - 1
          invariant |points| == 0 ==> i == 0 && length == 0.0
          invariant |points| > 0 ==> i < |points| && length == PathLength(points[..i + 1], m)
        {
          PathLengthStep(points, i, m);
          length := length + Dist(points[i], points[i + 1], m);
          i := i + 1;
        }
        assert |points| > 0 ==> points[..i + 1] == points;
      } else if t == "CIRCLE" {
        length := if e.shape.Circle? then 2.0 * Pi * e.shape.radius else 0.0;
      } else if t == "ARC" {
        length := if e.shape.Arc? then Abs(Radians(e.shape.endAngle) - Radians(e.shape.startAngle)) * e.shape.radius else 0.0;
      } else {
        length := 0.0;
      }
    }

    /** The centre and extent of every point of every recognised entity
        (`get_design_statistics`). */
    method DesignStatistics(entities: seq<Entity>, m: Numerics) returns (st: DesignStats)
      ensures st == DesignStatsOf(entities, m)
    {
      var all: seq<Point> := [];
      for i := 0 to |entities|
        invariant all == AllSamples(entities[..i], m)
      {
        var e := entities[i];
        assert entities[..i + 1] == entities[..i] + [e];
        AllSamplesSnoc(entities[..i], e, m);
        if IsRecognised(e) {
          var points := EntityPoints(e, m);
          all := all + points;
        }
      }
      assert entities[..|entities|] == entities;
      if |all| == 0 {
        return DesignStats(Point(0.0, 0.0), FallbackDimension);
      }
      var xs, ys := Xs(all), Ys(all);
      var center := Point(Sum(xs) / (|all| as real), Sum(ys) / (|all| as real));
      var minX, maxX, minY, maxY := MinOf(xs), MaxOf(xs), MinOf(ys), MaxOf(ys);
      st := DesignStats(center, Max(maxX - minX, maxY - minY));
    }

    /** The bounding box of the points of a list of records (`calculate_bounding_box`). */
    method CalculateBoundingBox(entities: seq<Processed>) returns (box: Box)
      ensures box == BoundingBoxOf(entities)
    {
      if |entities| == 0 {
        return EmptyBox;
      }
      var all: seq<Point> := [];
      for i := 0 to |entities|
        invariant all == PointsOf(entities[..i])
      {
        var pts := entities[i].points;
        for j := 0 to |pts|
          invariant all == PointsOf(entities[..i]) + pts[..j]
        {
          all := all + [pts[j]];
        }
        assert pts[..|pts|] == pts;
        assert entities[..i + 1] == entities[..i] + [entities[i]];
        PointsOfSnoc(entities[..i], entities[i]);
      }
      assert entities[..|entities|] == entities;
      if |all| == 0 {
        return EmptyBox;
      }
      var xs, ys := Xs(all), Ys(all);
      box := Box(MinOf(xs), MinOf(ys), MaxOf(xs), MaxOf(ys));
    }

    /** The body of the classification loop for one entity: an unrecognised type is
        skipped, an entity without points is skipped, and otherwise the entity is
        classified and measured into a record. */
    method Examine(e: Entity, st: DesignStats, m: Numerics) returns (record: Option<Processed>)
      ensures record == ProcessEntity(e, st, m)
    {
      if !IsRecognised(e) {
        return None;
      }
      var points := EntityPoints(e, m);
      if |points| == 0 {
        return None;
      }
      var verdict := Classify(e, points, st.center, st.maxDimension, m);
      var length := EntityLength(e, points, m);
      record := Some(Processed(DxfType(e), points, length, e.layer, !verdict.Phantom?,
                               if verdict.Phantom? then Some(verdict.reason) else None));
    }

    /** One run over a drawing's entities (the classification loop of
        `process_dxf_file`): the two lists are reset and refilled, and the result
        record is assembled from them. */
    method ProcessEntities(entities: seq<Entity>, m: Numerics) returns (result: Analysis)
      modifies this
      ensures result == AnalysisOf(entities, m)
      ensures validEntities == result.valid && phantomEntities == result.phantom
    {
      validEntities := [];
      phantomEntities := [];
      var st := DesignStatistics(entities, m);
      ghost var done: seq<Processed> := [];
      for i := 0 to |entities|
        invariant done == ProcessAll(entities[..i], st, m)
        invariant validEntities == Select(done, true)
        invariant phantomEntities == Select(done, false)
      {
        var e := entities[i];
        var record := Examine(e, st, m);
        RunStep(entities, i, st, m, done, record);
        if record.Some? {
          if record.value.isValid {
            validEntities := validEntities + [record.value];
          } else {
            phantomEntities := phantomEntities + [record.value];
          }
          done := done + [record.value];
        }
      }
      assert entities[..|entities|] == entities;
      var box := CalculateBoundingBox(validEntities);
      var total := SumLengths(validEntities);
      result := Analysis(|entities|, |validEntities|, |phantomEntities|, st, box,
                         total, total / 1000.0, validEntities, phantomEntities);
    }
  }
}
