# DXF phantom-entity filter, modelled in Dafny

This project models the analysis core of `DXFProcessor` in `backend/main.py`. The
processor reads the entities of a DXF drawing's model space: lines, lightweight
polylines, polylines, circles and arcs. It samples each one into a list of points and
measures its cut length. It estimates the design's centre and maximum extent from
every sampled point. It then decides, through an ordered list of rules, whether each
entity is real geometry to be cut or a "phantom": construction geometry, an invisible
entity, or a stray line to the origin or far off the design. The valid and phantom
records go into two lists. The bounding box and the total cut length are computed over
the valid entities only.

The model has these modules:

- `Geometry`: points and the distance between them; the bounding-box record with its
  width, height and area; sums, means, minima and maxima of coordinates; the extent of
  a point set.
- `Entities`: the entity kinds the processor recognises, and entities that carry a
  shape, a layer name and an invisibility flag.
- `Sampler`: the points and the length of one entity, as functions.
- `Classifier`: the phantom rules and their order.
- `Statistics`: the design centre and the maximum extent.
- `Aggregator`: one pass over a drawing as a function, with the properties of its
  result.
- `Processor`: the class `DxfProcessor`. Its fields are the valid and phantom lists,
  and its loop methods are each proved to compute the function that specifies them.
- `Drawings`: two two-line drawings worked out completely.
- `Seqs`: list concatenation, which the other modules use.

The math library is a parameter, `Numerics`, holding `sqrt`, `cos` and `sin`. Its
predicate `Sound()` states the only facts used about them:
- the square root of a nonnegative number is a nonnegative number whose square is the
  input;
- cos² + sin² = 1.

Pi is the constant 3.141592653589793. Degrees convert to radians as d·π/180.

An entity whose attributes cannot be read is the shape `Malformed(kind)`: the point
extractor catches the error and yields no points. An entity of any other DXF type is
`Unsupported(name)`. The name is any string other than the five recognised type names.

## Model

| member | source | states |
|---|---|---|
| Geometry.SquaredDist | backend/main.py:21-22 | the squared Euclidean distance is nonnegative |
| Geometry.Dist | backend/main.py:21-22 | `distance_to`: the square root of the squared difference; DistNonNegative, DistSelf, DistSymmetric and DistFromSquare state its properties |
| Geometry.DistNonNegative | backend/main.py:21-22 | with a sound square root, `distance_to` is nonnegative |
| Geometry.DistSelf | backend/main.py:21-22 | with a sound square root, the distance from a point to itself is 0 |
| Geometry.DistSymmetric | backend/main.py:21-22 | distance is symmetric |
| Geometry.DistFromSquare | backend/main.py:21-22 | with a sound square root and k ≥ 0, a distance whose square is k² is k, and one whose square is at most k² is at most k |
| Geometry.Radians | backend/main.py:127-128 | `math.radians`: degrees times π/180; ArcSampling uses it for the first and last arc samples |
| Geometry.PolarPoint | backend/main.py:121-122 | the sample point centre + r·(cos a, sin a) of the circle and arc loops; DistPolarPoint states that it lies at distance r when the math library is sound and r ≥ 0 |
| Geometry.DistPolarPoint | backend/main.py:119-123 | with a sound math library and r ≥ 0, the point centre + r·(cos a, sin a) lies at distance r from the centre, for every angle |
| Geometry.Box.Width | backend/main.py:34-36 | the width of a box whose minimum x does not exceed its maximum is nonnegative |
| Geometry.Box.Height | backend/main.py:38-40 | the height of a box whose minimum y does not exceed its maximum is nonnegative |
| Geometry.Box.Area | backend/main.py:42-44 | the area of an ordered box is nonnegative, and a box of zero width or zero height has area 0 |
| Geometry.MinOf | backend/main.py:225-228 | `min` of a nonempty list is an element of it and no larger than any element |
| Geometry.MaxOf | backend/main.py:225-228 | `max` of a nonempty list is an element of it and no smaller than any element |
| Geometry.MeanWithinRange | backend/main.py:220-221 | the mean of the coordinates lies between their minimum and maximum |
| Geometry.MeanBounds | backend/main.py:220-221 | if all values lie in [lo, hi], so does their mean |
| Geometry.Extent | backend/main.py:328-333 | the box of min/max coordinates holds every point and each of its four sides touches a point; it has min ≤ max; for no points it is the zero box |
| Geometry.ExtentSpans | backend/main.py:225-230 | no two points are further apart along x (y) than the width (height), and some pair spans each exactly |
| Geometry.SinglePointExtent | backend/main.py:328-333 | for every point p, the box of [p] is (p.x, p.y, p.x, p.y), of area 0 |
| Entities.KindName | backend/main.py:57-62 | each recognised kind is named by one of the five recognised DXF type names |
| Entities.DxfType | backend/main.py:104-134 | an entity's DXF type is one of the five recognised names exactly when its shape is not of an unsupported type |
| Sampler.Samples | backend/main.py:99-138 | `get_entity_points` as a function; LineSampling, CircleSampling, ArcSampling and UnreadableHasNoSamples state what it yields, and EntityPoints computes it with loops |
| Sampler.PathLength | backend/main.py:145-149 | the open-path sum over consecutive points; ShortPathHasNoLength, TwoPointPath, PathLengthNonNegative and PathLengthAppend state its properties |
| Sampler.Length | backend/main.py:140-159 | `calculate_entity_length` as a function; LineSampling, ShortLineHasNoLength, CircleSampling, ArcSampling and LengthNonNegative state its values, and EntityLength computes it |
| Sampler.LineSampling | backend/main.py:104-108 | a line yields its start and end, in that order; its length is the distance between them |
| Sampler.ShortLineHasNoLength | backend/main.py:143-144 | a line-typed entity with fewer than two points has length 0 |
| Sampler.CircleSampling | backend/main.py:115-123 | a circle yields 16 points; the first is at angle 0; with a sound math library and r ≥ 0 all lie at distance r from the centre; its length is 2πr whatever the points |
| Sampler.ArcSampling | backend/main.py:124-134 | an arc yields 17 points; the first is at the start angle and the last at the end angle, both converted to radians; with a sound math library and r ≥ 0 all lie at distance r from the centre; its length is abs(end − start)·r |
| Sampler.UnreadableHasNoSamples | backend/main.py:135-138 | an entity whose attributes cannot be read, or of a type with no branch, yields no points |
| Sampler.ShortPathHasNoLength | backend/main.py:145-149 | a polyline with at most one point has length 0 |
| Sampler.TwoPointPath | backend/main.py:145-149 | a two-vertex polyline is as long as the segment between its vertices |
| Sampler.PathLengthNonNegative | backend/main.py:145-149 | a polyline's length is nonnegative |
| Sampler.PathLengthAppend | backend/main.py:145-149 | joining two polylines adds exactly the edge between them: the path is open, with no closing edge |
| Sampler.LengthNonNegative | backend/main.py:140-159 | with a sound math library and nonnegative radii, every entity length is nonnegative |
| Classifier.UpperChar | backend/main.py:168 | ASCII upper-casing: a lower-case letter maps to its capital, any other character to itself |
| Classifier.Upper | backend/main.py:168 | upper-casing keeps the length and maps every character |
| Classifier.UpperIdempotent | backend/main.py:168 | upper-casing twice is upper-casing once |
| Classifier.UpperExamples | backend/main.py:168-170 | "defpoints" upper-cases to the phantom layer name "DEFPOINTS" |
| Classifier.FirstExtreme | backend/main.py:198-200 | finds no index exactly when no point has a coordinate beyond ±50000; otherwise it finds the first such point |
| Classifier.LineRule | backend/main.py:177-195 | the line filters in their order: some reason exactly when one of the three tests fires in any order, always a line reason, and the origin reason whenever an endpoint is at the origin |
| Classifier.Classify | backend/main.py:161-205 | rule order: no points gives exactly the "no points" reason; then a phantom layer in any case; then invisibility; line reasons only for lines with two points; valid exactly when no rule fires |
| Classifier.OriginRuleFirst | backend/main.py:181-184 | a line with an endpoint within 0.001 of the origin on both axes is rejected for that, before the length and distance rules |
| Classifier.TooLongRule | backend/main.py:186-189 | a line longer than 10 × the design extent is rejected with its length |
| Classifier.FarFromDesignRule | backend/main.py:191-195 | a line whose midpoint is further than 5 × the extent from the centre is rejected with that distance |
| Classifier.ExtremeRule | backend/main.py:197-200 | otherwise the first point with a coordinate beyond ±50000 is reported |
| Classifier.NonLineIgnoresStatistics | backend/main.py:177-178 | non-line entities get the same verdict whatever the design statistics, and never a line reason |
| Classifier.LayerCaseInsensitive | backend/main.py:168-171 | two entities whose layers upper-case alike get the same verdict |
| Classifier.DefpointsIsPhantom | backend/main.py:168-171 | an entity with points on layer DEFPOINTS, in any case, is phantom for its layer whatever its geometry or visibility |
| Statistics.SampleGroups | backend/main.py:211-214 | one group of points per entity |
| Statistics.AllSamples | backend/main.py:209-214 | the global point set of all recognised entities, in order; AllSamplesMember states its contents |
| Statistics.AllSamplesMember | backend/main.py:211-214 | the global point set holds exactly the points of the recognised entities, valid and phantom alike |
| Statistics.StatsOf | backend/main.py:216-232 | no points gives centre (0, 0) and extent 1000; otherwise the centre is the mean of the coordinates and lies in the points' box, and the extent is nonnegative, bounds every axis-aligned difference between two points, and equals one of them |
| Statistics.DesignStatsOf | backend/main.py:207-232 | `get_design_statistics` as a function: StatsOf of AllSamples; StatsOf and NoSamplesFallback state its properties, and DesignStatistics computes it |
| Statistics.NoSamplesFallback | backend/main.py:216-217 | a drawing with no recognised, readable entity gets the fallback statistics |
| Aggregator.ProcessEntity | backend/main.py:252-271 | an entity is skipped exactly when its type is not recognised or it yields no points; a record always has points |
| Aggregator.ProcessEntityRecord | backend/main.py:264-271 | a record holds the type name, the samples, the length, the layer as written, and the verdict; a reason is present exactly when the verdict is phantom |
| Aggregator.EmitGroups | backend/main.py:252-276 | one group per entity, each holding at most one record |
| Aggregator.ProcessAll | backend/main.py:252-276 | the records of a run in input order; ProcessAllSnoc, ProcessAllMember, ProcessAllShape and ProcessAllAppend state its properties |
| Aggregator.ProcessAllSnoc | backend/main.py:252-276 | one more entity appends its record, if any |
| Aggregator.ProcessAllMember | backend/main.py:252-276 | a record is in the run exactly when some entity produces it |
| Aggregator.ProcessAllShape | backend/main.py:252-276 | there are no more records than entities, and every record has points |
| Aggregator.ProcessAllAppend | backend/main.py:252-276 | records keep the input order |
| Aggregator.Select | backend/main.py:273-276 | the records of one validity, in order: no more than the records and all of that validity; SelectMember, SelectAppend, SelectPartition and SelectCount state the rest |
| Aggregator.SelectMember | backend/main.py:273-276 | a record is in the valid (phantom) list exactly when it is a record of the run and valid (phantom) |
| Aggregator.SelectAppend | backend/main.py:273-276 | each list keeps the input order |
| Aggregator.SelectPartition | backend/main.py:273-276 | the two lists together are a permutation of the records |
| Aggregator.SelectCount | backend/main.py:273-276 | the two lists' lengths add up to the number of records |
| Aggregator.SumLengths | backend/main.py:280 | the sum of the records' lengths; SumLengthsPartition, SumLengthsAppend and SumLengthsNonNegative state its properties |
| Aggregator.SumLengthsPartition | backend/main.py:280 | the valid and phantom lengths add up to the length of all records |
| Aggregator.SumLengthsAppend | backend/main.py:280 | the length sum is additive over concatenation |
| Aggregator.SumLengthsNonNegative | backend/main.py:280 | a sum of nonnegative lengths is nonnegative |
| Aggregator.PointsOfMember | backend/main.py:320-323 | the gathered points are exactly the points of the records |
| Aggregator.BoundingBoxOf | backend/main.py:315-333 | `calculate_bounding_box` as a function; BoundingBoxProperties states its properties, and CalculateBoundingBox computes it |
| Aggregator.BoundingBoxProperties | backend/main.py:315-333 | the box covers every point of every record; it is the zero box when there are no points; otherwise min ≤ max and each side touches a point |
| Aggregator.AnalysisOf | backend/main.py:243-303 | one run as a function; AnalysisCounts, AnalysisLists, AnalysisCutLength, AnalysisCutLengthNonNegative, AnalysisBoundingBox and EmptyDrawing state its properties, and ProcessEntities computes it |
| Aggregator.AnalysisCounts | backend/main.py:285-293 | the valid and phantom counts are the lists' lengths, and together they are at most the total entity count |
| Aggregator.AnalysisLists | backend/main.py:252-276 | the valid list is exactly the valid records and the phantom list exactly the phantom ones; no listed entity is rejected for having no points |
| Aggregator.AnalysisCutLength | backend/main.py:280 | the cut length is the valid records' length; with the phantom length it makes up the whole; metres are millimetres / 1000 (unrounded) |
| Aggregator.AnalysisCutLengthNonNegative | backend/main.py:280 | with a sound math library and nonnegative radii, the cut length is nonnegative |
| Aggregator.AnalysisBoundingBox | backend/main.py:279 | the box covers every point of every valid entity; it is the zero box when none is valid, and ordered otherwise |
| Aggregator.EmptyDrawing | backend/main.py:243-303 | an empty drawing has zero counts, fallback statistics, the zero box and length 0 |
| Processor.DxfProcessor.constructor | backend/main.py:95-97 | both lists start empty |
| Processor.DxfProcessor.EntityPoints | backend/main.py:99-138 | the sampling loops compute exactly `Samples` |
| Processor.DxfProcessor.EntityLength | backend/main.py:140-159 | the length computation, including the polyline loop, computes exactly `Length` |
| Processor.DxfProcessor.DesignStatistics | backend/main.py:207-232 | the collecting loop and the reductions compute exactly the statistics of all samples of recognised entities |
| Processor.DxfProcessor.CalculateBoundingBox | backend/main.py:315-333 | the nested gathering loop and the min/max compute exactly `BoundingBoxOf` |
| Processor.DxfProcessor.Examine | backend/main.py:253-271 | the loop body skips or builds the record exactly as `ProcessEntity` |
| Processor.DxfProcessor.ProcessEntities | backend/main.py:243-303 | resets and refills the two lists, so that afterwards they and the result equal `AnalysisOf` |
| Processor.RunStep | backend/main.py:252-276 | one iteration appends the entity's record, if any, to the list matching its validity only |
| Drawings.OriginLineDrawing | backend/main.py:181-184 | a cut line from (0,0) to (10,0) with a line on DEFPOINTS: both are phantom, for the origin and the layer; the box is the zero box; length 0; statistics centre (55, 50), extent 110 |
| Drawings.ShiftedLineDrawing | backend/main.py:243-303 | the cut line moved to (1,1)–(11,1): it alone is valid, with length 10; the box is (1,1)–(11,1) with area 0; the cut length is 10 mm = 0.01 m |
| Drawings.ShiftedCutLineRecord | backend/main.py:177-200 | the shifted cut line passes every rule against centre (55.5, 50.5) and extent 109 |
| Drawings.CutLineRecord | backend/main.py:181-184 | the line from the origin is rejected by the origin rule whatever the statistics |
| Drawings.DefpointsLineRecord | backend/main.py:168-171 | the line on DEFPOINTS is rejected for its layer whatever the statistics |

## Left out

- Reading the DXF file (through `ezdxf`), the FastAPI endpoints, CORS, the server start-up and the JSON serialisation (`to_dict`): these are I/O and framework code. Entities arrive as a list of values in the model.
- The top-level error path of `process_dxf_file` (an unreadable file gives `success: False`) is I/O; no model produces a failed run.
- Partial point lists: when reading a polyline vertex fails part-way, the source returns the vertices read so far. The model treats any unreadable entity as yielding no points at all.
- The error branch of `is_phantom_entity` (backend/main.py:202-203) is not modelled. In the source, any exception inside the rules gives a phantom "processing error" verdict. In the model, the layer and the invisibility flag are always readable values of the entity, and arithmetic never fails.
- Float overflow: `distance_to` squares with `**`, which raises OverflowError once a coordinate difference is beyond about 1.3e154. For a line that reaches the length test with such coordinates, the source gives the "processing error" verdict, and `calculate_entity_length` catches the same error and records length 0 (for such a polyline too). The model instead gives such a line an extreme-coordinate, too-long or far-from-design reason, and gives both entities their exact length. Both verdicts are phantom, so only the phantom record's reason and length differ.
- Classifier.Classify: the reason text (in Spanish, with numbers formatted to two decimals) is not modelled. A reason is a tagged value carrying the same data.
- Classifier.Upper: upper-cases ASCII letters only; `str.upper()` also maps non-ASCII letters.
- Aggregator.AnalysisOf: the rounding of the totals to 2 and 3 decimals (`round`) is not modelled; the totals are exact.
- `print` logging is left out.
- Floating point: coordinates, lengths and angles are exact reals, so NaN, infinities and rounding are not modelled. Exact statements such as "the last arc sample is at the end angle" hold in reals, not necessarily in IEEE doubles.
- `math.sqrt`, `math.cos` and `math.sin` are a parameter constrained only by `Numerics.Sound()`; the drawing lemmas that need a distance require it.
- The shortcut `hasattr(entity.dxf, 'invisible')` is folded into the entity's boolean flag: an entity without the attribute is a visible one.
- Sampler.CircleSampling, Sampler.ArcSampling and Geometry.DistPolarPoint: the distance of the samples from the centre is stated only for r ≥ 0. The source does not guard the radius; for a negative radius the samples lie at distance −r, which the model does not state.
- SPLINE is listed among the entity types but has no branch anywhere; it is one of the unsupported types and is skipped.

## A line at the origin

A line with an endpoint within 0.001 of the origin is phantom even on an ordinary
layer (backend/main.py:181-184). `Drawings.OriginLineDrawing` works through a drawing
of a line from (0,0) to (10,0) on layer "CUT" and a line on "DEFPOINTS". Neither line
is valid, so the box is the zero box and the cut length is 0. `Drawings.ShiftedLineDrawing`
works through the same drawing with the cut line moved to (1,1)–(11,1). The cut line is
then the one valid entity, with length 10 mm.
