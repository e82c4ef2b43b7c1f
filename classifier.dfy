/** The phantom classifier (`is_phantom_entity`): an ordered list of rejection
    rules, the first that matches deciding the verdict. */
module Classifier {
  import opened Geometry
  import opened Entities

  /** Layers whose entities are construction or helper geometry. */
  const PhantomLayers: set<string> := {"DEFPOINTS", "PHANTOM", "HIDDEN", "CONSTRUCTION", "TEMP"}

  /** A coordinate this close to 0 counts as the origin. */
  const OriginTolerance: real := 0.001
  /** A line longer than this many times the design's extent is a stray. */
  const LengthFactor: real := 10.0
  /** A line whose midpoint is further than this many times the extent from the centre is a stray. */
  const DistanceFactor: real := 5.0
  /** Absolute sanity bound on any coordinate, independent of the drawing's scale. */
  const CoordinateLimit: real := 50000.0

  /** ASCII upper-casing of one character. */
  function UpperChar(c: char): (u: char)
    ensures 'a' <= c <= 'z' ==> 'A' <= u <= 'Z' && u as int == c as int - 32
    ensures !('a' <= c <= 'z') ==> u == c
  {
    if 'a' <= c <= 'z' then (c as int - 32) as char else c
  }

  /** Upper-casing of a layer name (`str.upper()` on ASCII names). */
  function Upper(s: string): (u: string)
    ensures |u| == |s|
    ensures forall i :: 0 <= i < |s| ==> u[i] == UpperChar(s[i])
  {
    seq(|s|, i requires 0 <= i < |s| => UpperChar(s[i]))
  }

  lemma UpperIdempotent(s: string)
    ensures Upper(Upper(s)) == Upper(s)
  {
  }

  lemma UpperExamples()
    ensures Upper("defpoints") == "DEFPOINTS"
    ensures Upper("Hidden") == "HIDDEN"
    ensures Upper("Layer_1") == "LAYER_1"
  {
  }

  /** Why an entity was rejected. */
  datatype Reason =
    | NoPoints
    | PhantomLayer(layer: string)
    | Invisible
    | ConnectsToOrigin
    | TooLong(length: real)
    | FarFromDesign(distance: real)
    | ExtremeCoordinates(point: Point)
  {
    /** The reasons only the line-only rules give. */
    predicate IsLineReason()
    {
      ConnectsToOrigin? || TooLong? || FarFromDesign?
    }
  }

  datatype Verdict = Valid | Phantom(reason: Reason)

  predicate NearOrigin(p: Point)
  {
    Abs(p.x) < OriginTolerance && Abs(p.y) < OriginTolerance
  }

  predicate IsExtreme(p: Point)
  {
    Abs(p.x) > CoordinateLimit || Abs(p.y) > CoordinateLimit
  }

  function Midpoint(p: Point, q: Point): Point
  {
    Point((p.x + q.x) / 2.0, (p.y + q.y) / 2.0)
  }

  /** The index of the first point with an extreme coordinate, if any. */
  function FirstExtreme(pts: seq<Point>): (k: Option<nat>)
    ensures k.None? <==> forall i :: 0 <= i < |pts| ==> !IsExtreme(pts[i])
    ensures k.Some? ==>
      k.value < |pts| && IsExtreme(pts[k.value]) &&
      forall i :: 0 <= i < k.value ==> !IsExtreme(pts[i])
  {
    if |pts| == 0 then None
    else if IsExtreme(pts[0]) then Some(0)
    else
      match FirstExtreme(pts[1..])
      case None => None
      case Some(j) => Some(j + 1)
  }

  /** Whether the line-only rules apply: the entity is a line and has two points. */
  predicate LineRulesApply(e: Entity, pts: seq<Point>)
  {
    DxfType(e) == "LINE" && |pts| >= 2
  }

  /** The line-only rules, in their order: an endpoint at the origin, a length beyond
      ten times the design's extent, a midpoint further than five times the extent
      from the design's centre. */
  function LineRule(e: Entity, pts: seq<Point>, center: Point, maxDim: real, m: Numerics): (r: Option<Reason>)
    ensures r.Some? <==> LineFlagged(e, pts, center, maxDim, m)
    ensures r.Some? ==> r.value.IsLineReason()
    ensures LineRulesApply(e, pts) && (NearOrigin(pts[0]) || NearOrigin(pts[1])) ==> r == Some(ConnectsToOrigin)
  {
    if !LineRulesApply(e, pts) then None
    else
      var start, end := pts[0], pts[1];
      var length := Dist(start, end, m);
      var away := Dist(Midpoint(start, end), center, m);
      if NearOrigin(start) || NearOrigin(end) then Some(ConnectsToOrigin)
      else if length > maxDim * LengthFactor then Some(TooLong(length))
      else if away > maxDim * DistanceFactor then Some(FarFromDesign(away))
      else None
  }

  /** Whether any line-only rule fires, stated without their order. */
  predicate LineFlagged(e: Entity, pts: seq<Point>, center: Point, maxDim: real, m: Numerics)
  {
    && LineRulesApply(e, pts)
    && (|| NearOrigin(pts[0]) || NearOrigin(pts[1])
        || Dist(pts[0], pts[1], m) > maxDim * LengthFactor
        || Dist(Midpoint(pts[0], pts[1]), center, m) > maxDim * DistanceFactor)
  }

  /** The verdict on one entity with its sampled points, given the design's centre
      and maximum extent. */
  function Classify(e: Entity, pts: seq<Point>, center: Point, maxDim: real, m: Numerics): (v: Verdict)
    // no points: checked before anything else, and the only way to get that reason
    ensures |pts| == 0 <==> v == Phantom(NoPoints)
    // the layer filter: a phantom layer, whatever the geometry and the visibility
    ensures |pts| > 0 && Upper(e.layer) in PhantomLayers ==> v == Phantom(PhantomLayer(Upper(e.layer)))
    // the visibility filter
    ensures |pts| > 0 && Upper(e.layer) !in PhantomLayers && e.invisible ==> v == Phantom(Invisible)
    // the line-only reasons are given only to lines with two points
    ensures v.Phantom? && v.reason.IsLineReason() ==> LineRulesApply(e, pts)
    // an entity is valid exactly when no rule fires
    ensures v == Valid <==>
      && |pts| > 0
      && Upper(e.layer) !in PhantomLayers
      && !e.invisible
      && !LineFlagged(e, pts, center, maxDim, m)
      && forall i :: 0 <= i < |pts| ==> !IsExtreme(pts[i])
  {
    if |pts| == 0 then Phantom(NoPoints)
    else
      var layer := Upper(e.layer);
      if layer in PhantomLayers then Phantom(PhantomLayer(layer))
      else if e.invisible then Phantom(Invisible)
      else
        match LineRule(e, pts, center, maxDim, m)
        case Some(reason) => Phantom(reason)
        case None =>
          match FirstExtreme(pts)
          case Some(k) => Phantom(ExtremeCoordinates(pts[k]))
          case None => Valid
  }

  /** The origin test of the line filters comes before their length and distance tests: a line touching the origin
      is rejected for that even when it is also too long or too far away. */
  lemma OriginRuleFirst(e: Entity, pts: seq<Point>, center: Point, maxDim: real, m: Numerics)
    requires LineRulesApply(e, pts)
    requires Upper(e.layer) !in PhantomLayers && !e.invisible
    requires NearOrigin(pts[0]) || NearOrigin(pts[1])
    ensures Classify(e, pts, center, maxDim, m) == Phantom(ConnectsToOrigin)
  {
  }

  /** The length test of the line filters reports the measured length. */
  lemma TooLongRule(e: Entity, pts: seq<Point>, center: Point, maxDim: real, m: Numerics)
    requires LineRulesApply(e, pts)
    requires Upper(e.layer) !in PhantomLayers && !e.invisible
    requires !NearOrigin(pts[0]) && !NearOrigin(pts[1])
    requires Dist(pts[0], pts[1], m) > maxDim * LengthFactor
    ensures Classify(e, pts, center, maxDim, m) == Phantom(TooLong(Dist(pts[0], pts[1], m)))
  {
  }

  /** The distance test of the line filters reports the distance from the midpoint to
      the design's centre. */
  lemma FarFromDesignRule(e: Entity, pts: seq<Point>, center: Point, maxDim: real, m: Numerics)
    requires LineRulesApply(e, pts)
    requires Upper(e.layer) !in PhantomLayers && !e.invisible
    requires !NearOrigin(pts[0]) && !NearOrigin(pts[1])
    requires Dist(pts[0], pts[1], m) <= maxDim * LengthFactor
    requires Dist(Midpoint(pts[0], pts[1]), center, m) > maxDim * DistanceFactor
    ensures Classify(e, pts, center, maxDim, m) ==
      Phantom(FarFromDesign(Dist(Midpoint(pts[0], pts[1]), center, m)))
  {
  }

  /** The extreme-coordinate filter, last of all, reports the first point with an
      extreme coordinate. */
  lemma ExtremeRule(e: Entity, pts: seq<Point>, center: Point, maxDim: real, m: Numerics, k: nat)
    requires |pts| > 0 && Upper(e.layer) !in PhantomLayers && !e.invisible
    requires !LineFlagged(e, pts, center, maxDim, m)
    requires k < |pts| && IsExtreme(pts[k]) && forall i :: 0 <= i < k ==> !IsExtreme(pts[i])
    ensures Classify(e, pts, center, maxDim, m) == Phantom(ExtremeCoordinates(pts[k]))
  {
  }

  /** Entities other than lines are never judged against the design statistics: their
      verdict is the same whatever the centre and extent. */
  lemma NonLineIgnoresStatistics(e: Entity, pts: seq<Point>, c1: Point, d1: real, c2: Point, d2: real, m: Numerics)
    requires DxfType(e) != "LINE"
    ensures Classify(e, pts, c1, d1, m) == Classify(e, pts, c2, d2, m)
    ensures !(Classify(e, pts, c1, d1, m).Phantom? && Classify(e, pts, c1, d1, m).reason.IsLineReason())
  {
  }

  /** The layer test ignores case: two entities whose layer names upper-case alike, and
      that agree in everything else, get the same verdict. */
  lemma LayerCaseInsensitive(e1: Entity, e2: Entity, pts: seq<Point>, center: Point, maxDim: real, m: Numerics)
    requires e1.shape == e2.shape && e1.invisible == e2.invisible
    requires Upper(e1.layer) == Upper(e2.layer)
    ensures Classify(e1, pts, center, maxDim, m) == Classify(e2, pts, center, maxDim, m)
  {
  }

  /** An entity on layer "DEFPOINTS", in any case, is phantom whatever its geometry. */
  lemma DefpointsIsPhantom(e: Entity, pts: seq<Point>, center: Point, maxDim: real, m: Numerics)
    requires |pts| > 0 && Upper(e.layer) == "DEFPOINTS"
    ensures Classify(e, pts, center, maxDim, m) == Phantom(PhantomLayer("DEFPOINTS"))
  {
  }
}
